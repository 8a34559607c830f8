// agents/agent_base.go: the agent runtime over `types` tasks. Its task
// assignment reads a message's content map and type, which `types.Message`
// does not declare, so the content is a parameter here; so are the clock and
// whether the mailbox took a message.
module GoAgentBase {
  import opened Wrappers
  import opened GoTypes
  import GoHistory
  import GoAgentState

  /** `getStringFromMap`: the string stored under `key`, or "" when the key is
      missing or holds another type. */
  function GetStringFromMap(m: map<string, Value>, key: string): (r: string)
    ensures key in m && m[key].Str? ==> r == m[key].s
    ensures key !in m || !m[key].Str? ==> r == ""
  {
    if key in m && m[key].Str? then m[key].s else ""
  }

  /** The position of the first task with ID `id`, or `|ts|`. */
  function FindTask(ts: seq<Task>, id: string): (i: nat)
    ensures i <= |ts|
    ensures i < |ts| ==> ts[i].taskId == id
    ensures forall j :: 0 <= j < i ==> ts[j].taskId != id
  {
    if ts == [] then 0 else if ts[0].taskId == id then 0 else 1 + FindTask(ts[1..], id)
  }

  /** The `for i, t := range a.currentTasks` scan of `CompleteTask`. */
  method ScanTask(ts: seq<Task>, id: string) returns (i: nat)
    ensures i == FindTask(ts, id)
  {
    i := 0;
    while i < |ts|
      invariant 0 <= i <= |ts|
      invariant FindTask(ts, id) >= i
    {
      if ts[i].taskId == id {
        return;
      }
      i := i + 1;
    }
  }

  /** The list without its first task with ID `id`. */
  function WithoutTask(ts: seq<Task>, id: string): seq<Task>
  {
    var i := FindTask(ts, id);
    if i == |ts| then ts else RemoveAt(ts, i)
  }

  /** Taking out the first task with an ID shortens the list by one when some
      task has it and leaves the list alone otherwise; the tasks before it keep
      their places, the ones after move up by one, and one copy of it goes. */
  lemma WithoutTaskSpec(ts: seq<Task>, id: string)
    ensures (exists k :: 0 <= k < |ts| && ts[k].taskId == id) ==>
      |WithoutTask(ts, id)| == |ts| - 1 &&
      multiset(WithoutTask(ts, id)) == multiset(ts) - multiset{ts[FindTask(ts, id)]}
    ensures (forall k :: 0 <= k < |ts| ==> ts[k].taskId != id) ==> WithoutTask(ts, id) == ts
    ensures forall k :: 0 <= k < FindTask(ts, id) ==> WithoutTask(ts, id)[k] == ts[k]
    ensures forall k :: FindTask(ts, id) <= k < |WithoutTask(ts, id)| ==> WithoutTask(ts, id)[k] == ts[k + 1]
  {
  }

  /** The task `handleTaskAssignment` builds: it is pending when built and
      becomes "in_progress" through the pointer the list holds. */
  function AssignedTask(role: string, sender: string, id: string, content: map<string, Value>, now: nat): Task
  {
    Task(id, GetStringFromMap(content, "title"), GetStringFromMap(content, "description"),
         role, sender, "in_progress", [], [], None, now, now, map[])
  }

  /** `GetExecutionStats` of this agent: every key is present, the mean and the
      latest time being zero for an empty history. */
  datatype Stats = Stats(total: nat, success: nat, failed: nat, timeout: nat, avgDuration: int, lastExecutionTime: nat)

  /** Every field of the agent as one value. */
  datatype Fields = Fields(
    role: string, name: string, currentTasks: seq<Task>, completedTasks: seq<Task>,
    messages: seq<Message>, inbox: seq<Message>, workload: int, lastActive: nat, running: bool,
    executionHistory: seq<ExecutionHistory>)

  class BaseAgent {
    var role: string
    var name: string
    var currentTasks: seq<Task>
    var completedTasks: seq<Task>
    var messages: seq<Message>
    var inbox: seq<Message>
    /** `float64(len(currentTasks))`, kept as the integer. */
    var workload: int
    var lastActive: nat
    var running: bool
    var executionHistory: seq<ExecutionHistory>

    function Snapshot(): Fields
      reads this
    {
      Fields(role, name, currentTasks, completedTasks, messages, inbox, workload, lastActive, running,
             executionHistory)
    }

    /** The workload is the number of current tasks. */
    predicate Valid()
      reads this
    {
      workload == |currentTasks|
    }

    /** `NewBaseAgent`: named after its role, idle, with empty lists. */
    constructor (role: string, now: nat)
      ensures Snapshot() == Fields(role, role, [], [], [], [], 0, now, false, [])
      ensures Valid()
    {
      this.role := role;
      name := role;
      currentTasks, completedTasks, messages, inbox := [], [], [], [];
      workload, lastActive, running := 0, now, false;
      executionHistory := [];
    }

    /** `handleTaskAssignment`: content without a string "task_id" is ignored;
        otherwise the task it describes, assigned by the sender to this role,
        joins the current tasks in status "in_progress". Never an error. */
    method HandleTaskAssignment(sender: string, content: map<string, Value>, now: nat) returns (err: Option<string>)
      modifies this
      ensures err == None
      ensures !("task_id" in content && content["task_id"].Str?) ==> Snapshot() == old(Snapshot())
      ensures "task_id" in content && content["task_id"].Str? ==>
        Snapshot() == old(Snapshot()).(
          currentTasks := old(currentTasks) + [AssignedTask(old(role), sender, content["task_id"].s, content, now)],
          workload := |old(currentTasks)| + 1)
      ensures old(Valid()) ==> Valid()
    {
      if !("task_id" in content && content["task_id"].Str?) {
        return None;
      }
      var task := AssignedTask(role, sender, content["task_id"].s, content, now);
      currentTasks := currentTasks + [task];
      workload := |currentTasks|;
      return None;
    }

    /** `CompleteTask`: the task joins the completed ones whether or not it was
        current; the first current task with its ID leaves; the workload is
        recounted. */
    method CompleteTask(task: Task)
      modifies this
      ensures Snapshot() == old(Snapshot()).(
        completedTasks := old(completedTasks) + [task],
        currentTasks := WithoutTask(old(currentTasks), task.taskId),
        workload := |WithoutTask(old(currentTasks), task.taskId)|)
      ensures Valid()
    {
      completedTasks := completedTasks + [task];
      var i := ScanTask(currentTasks, task.taskId);
      if i < |currentTasks| {
        currentTasks := RemoveAt(currentTasks, i);
      }
      workload := |currentTasks|;
    }

    /** Appends, dropping the oldest entry when the history is full. */
    method AddExecutionHistory(h: ExecutionHistory)
      modifies this
      ensures executionHistory == Bounded(old(executionHistory), h, GoHistory.HistoryMaxSize)
      ensures |old(executionHistory)| <= GoHistory.HistoryMaxSize ==> |executionHistory| <= GoHistory.HistoryMaxSize
      ensures Snapshot() == old(Snapshot()).(executionHistory := executionHistory)
    {
      if |executionHistory| >= GoHistory.HistoryMaxSize {
        executionHistory := executionHistory[1..];
      }
      executionHistory := executionHistory + [h];
    }

    /** `updateExecutionHistory`. */
    method UpdateExecutionHistory(h: ExecutionHistory)
      modifies this
      ensures executionHistory == GoHistory.Upserted(old(executionHistory), h)
      ensures Snapshot() == old(Snapshot()).(executionHistory := executionHistory)
    {
      var i := GoHistory.ScanExecution(executionHistory, h.executionId);
      if i < |executionHistory| {
        executionHistory := executionHistory[i := h];
      } else {
        executionHistory := executionHistory + [h];
      }
    }

    /** A copy of the history. */
    function GetExecutionHistory(): (r: seq<ExecutionHistory>)
      reads this
      ensures |r| == |executionHistory| && forall k :: 0 <= k < |r| ==> r[k] == executionHistory[k]
    {
      executionHistory
    }

    /** The entries recorded for a task, in recording order. */
    method GetExecutionHistoryByTaskID(taskId: string) returns (r: seq<ExecutionHistory>)
      ensures r == Filter(executionHistory, GoAgentState.ForTask(taskId))
      ensures forall i :: 0 <= i < |r| ==> r[i].taskId == taskId && r[i] in executionHistory
      ensures forall h :: h in executionHistory && h.taskId == taskId ==> h in r
    {
      r := [];
      var i := 0;
      while i < |executionHistory|
        invariant 0 <= i <= |executionHistory|
        invariant r == Filter(executionHistory[..i], GoAgentState.ForTask(taskId))
      {
        assert executionHistory[..i + 1][..i] == executionHistory[..i];
        if executionHistory[i].taskId == taskId {
          r := r + [executionHistory[i]];
        }
        i := i + 1;
      }
      assert executionHistory[..i] == executionHistory;
    }

    /** The entries stamped strictly after `start` and before `end`, in recording order. */
    method GetExecutionHistoryByTimeRange(start: nat, end: nat) returns (r: seq<ExecutionHistory>)
      ensures r == Filter(executionHistory, GoAgentState.Between(start, end))
      ensures forall i :: 0 <= i < |r| ==> start < r[i].timestamp < end && r[i] in executionHistory
      ensures forall h :: h in executionHistory && start < h.timestamp < end ==> h in r
    {
      r := [];
      var i := 0;
      while i < |executionHistory|
        invariant 0 <= i <= |executionHistory|
        invariant r == Filter(executionHistory[..i], GoAgentState.Between(start, end))
      {
        assert executionHistory[..i + 1][..i] == executionHistory[..i];
        if start < executionHistory[i].timestamp < end {
          r := r + [executionHistory[i]];
        }
        i := i + 1;
      }
      assert executionHistory[..i] == executionHistory;
    }

    /** The last `count` entries in order; none for a non-positive count. */
    function GetRecentExecutions(count: int): (r: seq<ExecutionHistory>)
      reads this
      ensures count <= 0 ==> r == []
      ensures count > 0 ==> |r| == Min(count, |executionHistory|)
      ensures r == executionHistory[|executionHistory| - |r|..]
    {
      Recent(executionHistory, count)
    }

    /** Counts per status, which never add up past the total; the mean
        duration and the latest timestamp, both zero for an empty history. */
    method GetExecutionStats() returns (s: Stats)
      ensures s.total == |executionHistory|
      ensures s.success == GoHistory.Count(executionHistory, "success")
      ensures s.failed == GoHistory.Count(executionHistory, "failed")
      ensures s.timeout == GoHistory.Count(executionHistory, "timeout")
      ensures s.success + s.failed + s.timeout <= s.total
      ensures executionHistory == [] ==> s.avgDuration == 0 && s.lastExecutionTime == 0
      ensures executionHistory != [] ==>
        s.avgDuration == GoHistory.Quot(GoHistory.TotalDuration(executionHistory), |executionHistory|) &&
        s.lastExecutionTime == GoHistory.Latest(executionHistory)
    {
      var t := GoHistory.TallyOf(executionHistory);
      GoHistory.CountsBounded(executionHistory);
      s := Stats(|executionHistory|, t.success, t.failed, t.timeout, 0, 0);
      if |executionHistory| > 0 {
        s := s.(avgDuration := GoHistory.Quot(t.totalDuration, |executionHistory|), lastExecutionTime := t.last);
      }
    }

    /** A nil message, or one the mailbox does not take, is an error and
        nothing is recorded; otherwise the message, addressed to this role,
        goes to the inbox and the message list. */
    method ReceiveMessage(msg: Option<Message>, delivered: bool, now: nat) returns (err: Option<string>)
      modifies this
      ensures msg.None? ==> err.Some? && Snapshot() == old(Snapshot())
      ensures msg.Some? && !delivered ==> err.Some? && Snapshot() == old(Snapshot())
      ensures msg.Some? && delivered ==>
        var m := msg.value.(receiver := old(role));
        err == None &&
        Snapshot() == old(Snapshot()).(inbox := old(inbox) + [m], messages := old(messages) + [m], lastActive := now)
    {
      if msg.None? {
        return Some("message is nil");
      }
      var m := msg.value.(receiver := role);
      if !delivered {
        return Some("mailbox is full");
      }
      inbox := inbox + [m];
      messages := messages + [m];
      lastActive := now;
      return None;
    }

    /** Starting a running agent is an error and changes nothing. */
    method Start() returns (err: Option<string>)
      modifies this
      ensures old(running) ==> err.Some? && Snapshot() == old(Snapshot())
      ensures !old(running) ==> err == None && Snapshot() == old(Snapshot()).(running := true)
    {
      if running {
        return Some("agent is already running");
      }
      running := true;
      return None;
    }

    /** Stopping is never an error; a stopped agent stays as it is. */
    method Stop() returns (err: Option<string>)
      modifies this
      ensures err == None && Snapshot() == old(Snapshot()).(running := false)
    {
      if !running {
        return None;
      }
      running := false;
      return None;
    }

    function IsRunning(): bool
      reads this
    {
      running
    }
  }

  /** An assignment is the task the content describes: its ID, title and
      description come from the content, it is assigned by the sender to the
      role, and it is in progress. */
  lemma AssignedTaskSpec(role: string, sender: string, id: string, content: map<string, Value>, now: nat)
    ensures var t := AssignedTask(role, sender, id, content, now);
      t.taskId == id && t.assignedTo == role && t.assignedBy == sender && t.status == "in_progress" &&
      ("title" in content && content["title"].Str? ==> t.title == content["title"].s) &&
      ("title" !in content ==> t.title == "") &&
      ("description" in content && content["description"].Str? ==> t.description == content["description"].s) &&
      ("description" !in content ==> t.description == "")
  {
  }

  /** Completing a task that is not current adds it to the completed ones and
      leaves the current ones as they were. */
  lemma CompleteUnknown(current: seq<Task>, task: Task)
    requires forall k :: 0 <= k < |current| ==> current[k].taskId != task.taskId
    ensures WithoutTask(current, task.taskId) == current
  {
  }

  /** Completing a current task removes exactly one task: the first with its ID. */
  lemma CompleteKnown(current: seq<Task>, task: Task, i: nat)
    requires i < |current| && current[i].taskId == task.taskId
    requires forall j :: 0 <= j < i ==> current[j].taskId != task.taskId
    ensures WithoutTask(current, task.taskId) == RemoveAt(current, i)
  {
    assert FindTask(current, task.taskId) == i;
  }
}
