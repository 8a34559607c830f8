// agents/base_agent.go: the agent runtime over `ds` tasks and messages. The
// LLM, the agent graph that executes a task, JSON decoding, UUIDs and the
// clock are parameters: `execErr` is what `executeTask` returned, `uuid` what
// `utils.NewUUID` gave, `unmarshal` what `json.Unmarshal` decodes from a text.
// The mailbox's inbox channel is the field `inbox`; `delivered` says whether
// `PushInbox` got the message into it before its timeout.
module GoBaseAgent {
  import opened Wrappers
  import opened GoTypes
  import opened Strings
  import GoTask
  import GoGlobalState
  import GoAgentState
  import GoHistory

  // ---------------------------------------------------------------- extractJSON

  /** The trimmed text from `start` up to the next fence, if a fence follows. */
  function Closed(content: string, start: nat): (r: Option<string>)
    requires start <= |content|
  {
    var end := Index(content[start..], "```");
    if end == -1 then None else Some(TrimSpace(content[start..start + end]))
  }

  /** The position after the line break that follows `start`, or `start` itself. */
  function AfterLine(content: string, start: nat): (r: nat)
    requires start <= |content|
    ensures start <= r <= |content|
  {
    var nl := Index(content[start..], "\n");
    if nl == -1 then start else start + nl + 1
  }

  /** The span from the first '[' to the last ']', or the whole text. */
  function Brackets(content: string): (r: string)
  {
    var s := Index(content, "[");
    var e := LastIndex(content, "]");
    if s != -1 && e != -1 && e > s then content[s..e + 1] else content
  }

  /** The body of the first ```json fence, if it is closed. */
  function JsonFenced(content: string): (r: Option<string>)
  {
    var j := Index(content, "```json");
    if j != -1 then Closed(content, j + 7) else None
  }

  /** The body of the first fence past its first line, if it is closed. */
  function AnyFenced(content: string): (r: Option<string>)
  {
    var f := Index(content, "```");
    if f != -1 then Closed(content, AfterLine(content, f + 3)) else None
  }

  /** `extractJSON`: a closed ```json fence first, then any closed fence after
      its first line, then the bracket span. */
  function ExtractJSON(content: string): (r: string)
  {
    if JsonFenced(content).Some? then JsonFenced(content).value
    else if AnyFenced(content).Some? then AnyFenced(content).value
    else Brackets(content)
  }

  lemma {:induction false} TrimLeftSnoc(b: string, c: char)
    requires IsSpace(c)
    ensures TrimLeft(b + [c]) == if TrimLeft(b) == [] then [] else TrimLeft(b) + [c]
    decreases |b|
  {
    var s := b + [c];
    if b == [] {
      assert s[1..] == [];
    } else if IsSpace(b[0]) {
      assert s[0] == b[0] && s[1..] == b[1..] + [c];
      TrimLeftSnoc(b[1..], c);
    } else {
      assert s[0] == b[0];
    }
  }

  lemma TrimLeftCons(c: char, b: string)
    requires IsSpace(c)
    ensures TrimLeft([c] + b) == TrimLeft(b)
  {
    assert ([c] + b)[1..] == b;
  }

  lemma TrimRightSnoc(t: string, c: char)
    requires IsSpace(c)
    ensures TrimRight(t + [c]) == TrimRight(t)
  {
    assert (t + [c])[..|t|] == t;
  }

  /** Line breaks around a body do not survive trimming. */
  lemma TrimAround(b: string)
    ensures TrimSpace("\n" + b + "\n") == TrimSpace(b)
  {
    assert "\n" + b + "\n" == ['\n'] + (b + ['\n']);
    TrimLeftCons('\n', b + ['\n']);
    TrimLeftSnoc(b, '\n');
    if TrimLeft(b) != [] {
      TrimRightSnoc(TrimLeft(b), '\n');
    }
  }

  /** The first occurrence of a pattern the text starts with is at 0. */
  lemma IndexAtStart(s: string, p: string)
    requires OccursAt(s, p, 0)
    ensures Index(s, p) == 0
  {
    assert 0 <= 0 <= |s| - |p|;
  }

  /** A fence pattern cannot start inside a body free of fences when a line
      break separates the body from the closing fence. */
  lemma ClosingFence(b: string)
    requires !Contains(b, "```")
    ensures Index("\n" + b + "\n```", "```") == |b| + 2
  {
    var c := "\n" + b + "\n```";
    assert OccursAt(c, "```", |b| + 2) by {
      assert c[|b| + 2..|b| + 5] == "```";
    }
    forall i | 0 <= i < |b| + 2
      ensures !OccursAt(c, "```", i)
    {
      if i == 0 {
        assert c[i..i + 3][0] == '\n';
      } else if i + 3 <= |b| + 1 {
        assert c[i..i + 3] == b[i - 1..i + 2];
        assert !OccursAt(b, "```", i - 1);
        assert b[i - 1..i + 2] != "```";
      } else {
        assert c[i..i + 3][|b| + 1 - i] == c[|b| + 1] == '\n';
      }
    }
    var r := Index(c, "```");
    assert r != -1;
  }

  /** The closing fence is found right after the body's trailing line break. */
  lemma FencedClosed(b: string)
    requires !Contains(b, "```")
    ensures Closed("```json\n" + b + "\n```", 7) == Some(TrimSpace("\n" + b + "\n"))
  {
    var content := "```json\n" + b + "\n```";
    assert content[7..] == "\n" + b + "\n```";
    ClosingFence(b);
    assert content[7..7 + |b| + 2] == "\n" + b + "\n";
  }

  /** Wrapping a fence-free body in a ```json fence and extracting it gives the trimmed body. */
  lemma ExtractFencedJson(b: string)
    requires !Contains(b, "```")
    ensures ExtractJSON("```json\n" + b + "\n```") == TrimSpace(b)
  {
    var content := "```json\n" + b + "\n```";
    OpensWithJsonFence(b);
    FencedClosed(b);
    TrimAround(b);
    JsonFenceFirst(content, TrimSpace("\n" + b + "\n"));
  }

  lemma OpensWithJsonFence(b: string)
    ensures OccursAt("```json\n" + b + "\n```", "```json", 0)
  {
    var content := "```json\n" + b + "\n```";
    assert content[0..7] == "```json";
  }

  /** A text that opens with a closed ```json fence extracts to that fence's body. */
  lemma JsonFenceFirst(content: string, body: string)
    requires OccursAt(content, "```json", 0)
    requires 7 <= |content| && Closed(content, 7) == Some(body)
    ensures ExtractJSON(content) == body
  {
    IndexAtStart(content, "```json");
  }

  /** A pattern "```json" occurs only where a fence does. */
  lemma NoFenceNoJsonFence(s: string)
    requires !Contains(s, "```")
    ensures !Contains(s, "```json")
  {
    forall i | 0 <= i <= |s| - 7 && OccursAt(s, "```json", i)
      ensures false
    {
      assert s[i..i + 3] == s[i..i + 7][..3];
      assert OccursAt(s, "```", i);
    }
  }

  /** Without fences the result is the whole text, or a span of it that opens
      with '[' and closes with ']'. */
  lemma ExtractUnfenced(s: string)
    requires !Contains(s, "```")
    ensures var r := ExtractJSON(s);
      r == s || (|r| >= 2 && r[0] == '[' && r[|r| - 1] == ']' && Contains(s, r))
  {
    NoFenceNoJsonFence(s);
    var st := Index(s, "[");
    var e := LastIndex(s, "]");
    if st != -1 && e != -1 && e > st {
      var r := s[st..e + 1];
      assert OccursAt(s, r, st);
      assert r[0] == s[st] == s[st..st + 1][0];
      assert r[|r| - 1] == s[e] == s[e..e + 1][0];
    }
  }

  /** A bare JSON array passes through unchanged. */
  lemma ExtractBareArray(s: string)
    requires !Contains(s, "```") && |s| >= 2 && s[0] == '[' && s[|s| - 1] == ']'
    ensures ExtractJSON(s) == s
  {
    NoFenceNoJsonFence(s);
    assert s[0..1] == "[";
    IndexAtStart(s, "[");
    assert OccursAt(s, "]", |s| - 1) by { assert s[|s| - 1..|s|] == "]"; }
    var e := LastIndex(s, "]");
    assert e != -1 && e >= |s| - 1;
    assert e + 1 <= |s|;
    assert s[0..|s|] == s;
  }

  // ------------------------------------------------------------- parseLLMTasks

  /** `llmTaskResult`. */
  datatype LlmTask = LlmTask(title: string, description: string, priority: string)

  /** The task `parseLLMTasks` builds for one entry it keeps. */
  function LlmTaskFields(e: LlmTask, name: string, now: nat): GoTask.Fields
  {
    GoTask.Fields(GoTask.GenerateTaskID(now), e.title, e.description, name, name, GoTask.Pending,
                  if e.priority == "" then GoTask.Medium else e.priority, [], [], None, now, now,
                  map["source" := Str("llm_generated"), "generated_by" := Str(name)])
  }

  /** The decoded entries with a title, in order, as tasks. */
  function LlmTasks(es: seq<LlmTask>, name: string, now: nat): (ts: seq<GoTask.Fields>)
    decreases |es|
  {
    if es == [] then []
    else
      var e := es[|es| - 1];
      LlmTasks(es[..|es| - 1], name, now) + (if e.title == "" then [] else [LlmTaskFields(e, name, now)])
  }

  /** Entries with a title. */
  function Titled(es: seq<LlmTask>): (n: nat)
    decreases |es|
  {
    if es == [] then 0 else Titled(es[..|es| - 1]) + (if es[|es| - 1].title == "" then 0 else 1)
  }

  /** One task per titled entry. */
  lemma {:induction false} LlmTasksCount(es: seq<LlmTask>, name: string, now: nat)
    ensures |LlmTasks(es, name, now)| == Titled(es) <= |es|
    decreases |es|
  {
    if es != [] {
      LlmTasksCount(es[..|es| - 1], name, now);
    }
  }

  /** Every titled entry gives a task. */
  lemma {:induction false} LlmTasksComplete(es: seq<LlmTask>, name: string, now: nat)
    ensures forall k :: 0 <= k < |es| && es[k].title != "" ==> LlmTaskFields(es[k], name, now) in LlmTasks(es, name, now)
    decreases |es|
  {
    if es != [] {
      var init := es[..|es| - 1];
      LlmTasksComplete(init, name, now);
      assert forall k :: 0 <= k < |init| ==> init[k] == es[k];
    }
  }

  /** Every task comes from a titled entry; so each is pending, assigned to
      and by the agent, marked as generated by the LLM, and has a priority
      (lower-case medium when the entry gave none). */
  lemma {:induction false} LlmTasksSound(es: seq<LlmTask>, name: string, now: nat)
    ensures forall t :: t in LlmTasks(es, name, now) ==> exists e :: e in es && e.title != "" && t == LlmTaskFields(e, name, now)
    ensures forall t :: t in LlmTasks(es, name, now) ==>
      t.title != "" && t.assignedTo == name && t.assignedBy == name && t.status == GoTask.Pending &&
      t.priority != "" && "source" in t.metadata && t.metadata["source"] == Str("llm_generated")
    decreases |es|
  {
    if es != [] {
      var init := es[..|es| - 1];
      LlmTasksSound(init, name, now);
      assert forall e :: e in init ==> e in es;
      assert es[|es| - 1] in es;
    }
  }

  lemma LlmTasksSnoc(es: seq<LlmTask>, e: LlmTask, name: string, now: nat)
    ensures LlmTasks(es + [e], name, now) ==
      LlmTasks(es, name, now) + (if e.title == "" then [] else [LlmTaskFields(e, name, now)])
  {
    assert (es + [e])[..|es|] == es;
  }

  /** The `for i, t := range currentTasks { if t.ID == id { ...; break } }`
      loop: the first task with the ID leaves the list. */
  function Without(ts: seq<GoTask.Fields>, id: string): (r: seq<GoTask.Fields>)
  {
    var i := GoAgentState.FindId(ts, id);
    if i == |ts| then ts else RemoveAt(ts, i)
  }

  /** A completion report for the scheduler's `onTaskComplete` callback. */
  datatype Completion = Completion(taskId: string, agentName: string, success: bool)

  /** `GetExecutionStats` of this agent: the averages and the last time are
      present only for a non-empty history. */
  datatype Stats = Stats(total: nat, success: nat, failed: nat, avgDuration: Option<int>, lastExecutionTime: Option<nat>)

  /** The entry `ProcessTask` records before running the task. */
  function Started(id: string, task: GoTask.Fields, now: nat): ExecutionHistory
  {
    ExecutionHistory(id, now, task.id, "", "process_task",
      map["task_id" := Str(task.id), "title" := Str(task.title), "description" := Str(task.description),
          "dependencies" := Strs(task.dependencies)],
      map[], "processing", 0, "", [], map[])
  }

  /** The same entry once the task has run for `elapsed` ticks. */
  function Finished(id: string, task: GoTask.Fields, now: nat, execErr: Option<string>, elapsed: nat): ExecutionHistory
  {
    var h := Started(id, task, now).(duration := elapsed);
    match execErr
    case Some(e) => h.(status := "failed", errorMessage := e)
    case None => h.(status := "success",
                    output := map["processed_at" := Int(now + elapsed), "duration_ms" := Int(elapsed * 1000)])
  }

  /** The updater `ProcessTask` hands to the global state's `UpdateTask`. */
  function MarkTask(status: string, assignee: Option<string>): Task -> Task
  {
    (t: Task) => if assignee.Some? then t.(status := status, assignedTo := assignee.value) else t.(status := status)
  }

  /** The global state's task map after `ProcessTask` has marked the task
      assigned to the agent and then `status`. */
  function Marked(tasks: map<string, Task>, id: string, name: string, status: Option<string>): map<string, Task>
  {
    if id !in tasks then tasks
    else
      var t := tasks[id].(status := GoTask.Assigned, assignedTo := name);
      tasks[id := if status.Some? then t.(status := status.value) else t]
  }

  /** Every field of the agent as one value. */
  datatype Fields = Fields(
    name: string, currentTasks: seq<GoTask.Fields>, completedTasks: seq<GoTask.Fields>,
    messages: seq<DsMessage>, inbox: seq<DsMessage>, workload: int, lastActive: nat, running: bool,
    executionHistory: seq<ExecutionHistory>, notifies: bool)

  class BaseAgent {
    var name: string
    var currentTasks: seq<GoTask.Fields>
    var completedTasks: seq<GoTask.Fields>
    var messages: seq<DsMessage>
    var inbox: seq<DsMessage>
    /** `float64(len(currentTasks))`, kept as the integer. */
    var workload: int
    var lastActive: nat
    var running: bool
    var executionHistory: seq<ExecutionHistory>
    var globalState: Option<GoGlobalState.GlobalState>
    /** Whether an `onTaskComplete` callback is set. */
    var notifies: bool

    function Snapshot(): Fields
      reads this
    {
      Fields(name, currentTasks, completedTasks, messages, inbox, workload, lastActive, running,
             executionHistory, notifies)
    }

    /** The workload is the number of current tasks. */
    predicate Valid()
      reads this
    {
      workload == |currentTasks|
    }

    /** `NewBaseAgent`, past the parts that build the LLM agent graph. */
    constructor (name: string, now: nat)
      ensures Snapshot() == Fields(name, [], [], [], [], 0, now, false, [], false) && globalState == None
      ensures Valid()
    {
      this.name := name;
      currentTasks, completedTasks, messages, inbox := [], [], [], [];
      workload, lastActive, running := 0, now, false;
      executionHistory, globalState, notifies := [], None, false;
    }

    method SetGlobalState(gs: Option<GoGlobalState.GlobalState>)
      modifies this
      ensures globalState == gs && Snapshot() == old(Snapshot())
    {
      globalState := gs;
    }

    method SetOnTaskComplete(present: bool)
      modifies this
      ensures Snapshot() == old(Snapshot()).(notifies := present) && globalState == old(globalState)
    {
      notifies := present;
    }

    /** Starting a running agent is an error and changes nothing. */
    method Start() returns (err: Option<string>)
      modifies this
      ensures old(running) ==> err.Some? && Snapshot() == old(Snapshot())
      ensures !old(running) ==> err == None && Snapshot() == old(Snapshot()).(running := true)
      ensures globalState == old(globalState)
    {
      if running {
        return Some("agent is already running");
      }
      running := true;
      return None;
    }

    /** Stopping is never an error; a stopped agent stays as it is. */
    method Stop() returns (err: Option<string>)
      modifies this
      ensures err == None && Snapshot() == old(Snapshot()).(running := false)
      ensures globalState == old(globalState)
    {
      if !running {
        return None;
      }
      running := false;
      return None;
    }

    function IsRunning(): bool
      reads this
    {
      running
    }

    /** A nil message, or one the mailbox does not take in time, is an error
        and nothing is recorded; otherwise the message, addressed to this
        agent, goes to the inbox and the message list. */
    method ReceiveMessage(msg: Option<DsMessage>, delivered: bool, now: nat) returns (err: Option<string>)
      modifies this
      ensures msg.None? ==> err.Some? && Snapshot() == old(Snapshot())
      ensures msg.Some? && !delivered ==> err.Some? && Snapshot() == old(Snapshot())
      ensures msg.Some? && delivered ==>
        var m := msg.value.(receiver := old(name));
        err == None &&
        Snapshot() == old(Snapshot()).(inbox := old(inbox) + [m], messages := old(messages) + [m], lastActive := now)
      ensures globalState == old(globalState)
    {
      if msg.None? {
        return Some("message is nil");
      }
      var m := msg.value.(receiver := name);
      if !delivered {
        return Some("mailbox " + name + " is full, message " + m.id + " dropped");
      }
      inbox := inbox + [m];
      messages := messages + [m];
      lastActive := now;
      return None;
    }

    /** Appends, dropping the oldest entry when the history is full. */
    method AddExecutionHistory(h: ExecutionHistory)
      modifies this
      ensures executionHistory == Bounded(old(executionHistory), h, GoHistory.HistoryMaxSize)
      ensures |old(executionHistory)| <= GoHistory.HistoryMaxSize ==> |executionHistory| <= GoHistory.HistoryMaxSize
      ensures Snapshot() == old(Snapshot()).(executionHistory := executionHistory) && globalState == old(globalState)
    {
      if |executionHistory| >= GoHistory.HistoryMaxSize {
        executionHistory := executionHistory[1..];
      }
      executionHistory := executionHistory + [h];
    }

    /** `updateExecutionHistory`. */
    method UpdateExecutionHistory(h: ExecutionHistory)
      modifies this
      ensures executionHistory == GoHistory.Upserted(old(executionHistory), h)
      ensures Snapshot() == old(Snapshot()).(executionHistory := executionHistory) && globalState == old(globalState)
    {
      var i := GoHistory.ScanExecution(executionHistory, h.executionId);
      if i < |executionHistory| {
        executionHistory := executionHistory[i := h];
      } else {
        executionHistory := executionHistory + [h];
      }
    }

    function GetExecutionHistory(): (r: seq<ExecutionHistory>)
      reads this
      ensures |r| == |executionHistory| && forall k :: 0 <= k < |r| ==> r[k] == executionHistory[k]
    {
      executionHistory
    }

    /** The entries recorded for `taskId`, in recording order. */
    method GetExecutionHistoryByTaskID(taskId: string) returns (r: seq<ExecutionHistory>)
      ensures r == Filter(executionHistory, GoAgentState.ForTask(taskId))
      ensures forall i :: 0 <= i < |r| ==> r[i].taskId == taskId && r[i] in executionHistory
      ensures forall h :: h in executionHistory && h.taskId == taskId ==> h in r
    {
      r := [];
      var i := 0;
      while i < |executionHistory|
        invariant 0 <= i <= |executionHistory|
        invariant r == Filter(executionHistory[..i], GoAgentState.ForTask(taskId))
      {
        assert executionHistory[..i + 1][..i] == executionHistory[..i];
        if executionHistory[i].taskId == taskId {
          r := r + [executionHistory[i]];
        }
        i := i + 1;
      }
      assert executionHistory[..i] == executionHistory;
    }

    /** The entries stamped strictly after `start` and before `end`, in recording order. */
    method GetExecutionHistoryByTimeRange(start: nat, end: nat) returns (r: seq<ExecutionHistory>)
      ensures r == Filter(executionHistory, GoAgentState.Between(start, end))
      ensures forall i :: 0 <= i < |r| ==> start < r[i].timestamp < end && r[i] in executionHistory
      ensures forall h :: h in executionHistory && start < h.timestamp < end ==> h in r
    {
      r := [];
      var i := 0;
      while i < |executionHistory|
        invariant 0 <= i <= |executionHistory|
        invariant r == Filter(executionHistory[..i], GoAgentState.Between(start, end))
      {
        assert executionHistory[..i + 1][..i] == executionHistory[..i];
        if start < executionHistory[i].timestamp < end {
          r := r + [executionHistory[i]];
        }
        i := i + 1;
      }
      assert executionHistory[..i] == executionHistory;
    }

    /** The last `count` entries in order; none for a non-positive count. */
    function GetRecentExecutions(count: int): (r: seq<ExecutionHistory>)
      reads this
      ensures count <= 0 ==> r == []
      ensures count > 0 ==> |r| == Min(count, |executionHistory|)
      ensures r == executionHistory[|executionHistory| - |r|..]
    {
      Recent(executionHistory, count)
    }

    /** Counts per status, and for a non-empty history the mean duration and
        the latest timestamp; successes and failures never exceed the total. */
    method GetExecutionStats() returns (s: Stats)
      ensures s.total == |executionHistory|
      ensures s.success == GoHistory.Count(executionHistory, "success")
      ensures s.failed == GoHistory.Count(executionHistory, "failed")
      ensures s.success + s.failed <= s.total
      ensures executionHistory == [] ==> s.avgDuration == None && s.lastExecutionTime == None
      ensures executionHistory != [] ==>
        s.avgDuration == Some(GoHistory.Quot(GoHistory.TotalDuration(executionHistory), |executionHistory|)) &&
        s.lastExecutionTime == Some(GoHistory.Latest(executionHistory))
    {
      var t := GoHistory.TallyOf(executionHistory);
      GoHistory.CountsBounded(executionHistory);
      s := Stats(|executionHistory|, t.success, t.failed, None, None);
      if |executionHistory| > 0 {
        s := s.(avgDuration := Some(GoHistory.Quot(t.totalDuration, |executionHistory|)), lastExecutionTime := Some(t.last));
      }
    }

    /** `parseLLMTasks`: text that does not decode is an error; otherwise the
        titled entries become tasks of this agent. */
    method ParseLLMTasks(content: string, unmarshal: string -> Option<seq<LlmTask>>, now: nat)
      returns (r: Result<seq<GoTask.Fields>, string>)
      ensures unmarshal(ExtractJSON(content)).None? ==> r.Err?
      ensures unmarshal(ExtractJSON(content)).Some? ==> r == Ok(LlmTasks(unmarshal(ExtractJSON(content)).value, name, now))
    {
      var decoded := unmarshal(ExtractJSON(content));
      if decoded.None? {
        return Err("json unmarshal failed");
      }
      var tasks := BuildTasks(decoded.value, now);
      return Ok(tasks);
    }

    /** The loop of `parseLLMTasks` over the decoded entries. */
    method BuildTasks(es: seq<LlmTask>, now: nat) returns (tasks: seq<GoTask.Fields>)
      ensures tasks == LlmTasks(es, name, now)
    {
      tasks := [];
      var i := 0;
      while i < |es|
        invariant 0 <= i <= |es|
        invariant tasks == LlmTasks(es[..i], name, now)
      {
        assert es[..i + 1] == es[..i] + [es[i]];
        LlmTasksSnoc(es[..i], es[i], name, now);
        if es[i].title != "" {
          tasks := tasks + [LlmTaskFields(es[i], name, now)];
        }
        i := i + 1;
      }
      assert es[..i] == es;
    }

    /** `GenerateTasks`: a failed LLM call is an error; an empty reply, or one
        that does not decode, gives no tasks. */
    method GenerateTasks(reply: Result<string, string>, unmarshal: string -> Option<seq<LlmTask>>, now: nat)
      returns (r: Result<seq<GoTask.Fields>, string>)
      ensures r.Err? <==> reply.Err?
      ensures reply.Ok? && (reply.value == "" || unmarshal(ExtractJSON(reply.value)).None?) ==> r == Ok([])
      ensures reply.Ok? && reply.value != "" && unmarshal(ExtractJSON(reply.value)).Some? ==>
        r == Ok(LlmTasks(unmarshal(ExtractJSON(reply.value)).value, name, now))
    {
      if reply.Err? {
        return Err("LLM generate failed: " + reply.error);
      }
      if reply.value == "" {
        return Ok([]);
      }
      var parsed := ParseLLMTasks(reply.value, unmarshal, now);
      if parsed.Err? {
        return Ok([]);
      }
      return parsed;
    }

    /** The first half of `ProcessTask` on the agent: the copy joins the
        current tasks. */
    method TakeTask(task: GoTask.Fields, now: nat)
      modifies this
      ensures Snapshot() == Taken(old(Snapshot()), task, now) && globalState == old(globalState)
    {
      currentTasks := currentTasks + [task];
      workload := |currentTasks|;
      lastActive := now;
    }

    /** Recounts the workload after the outcome, and on success completes the
        task and drops the first current task with its ID. */
    method Settle(task: GoTask.Fields, failed: bool)
      modifies this
      ensures Snapshot() == Settled(old(Snapshot()), task, failed) && globalState == old(globalState)
    {
      if failed {
        workload := |currentTasks|;
      } else {
        completedTasks := completedTasks + [task];
        var i := GoAgentState.Search(currentTasks, task.id);
        if i < |currentTasks| {
          currentTasks := RemoveAt(currentTasks, i);
        }
        workload := |currentTasks|;
      }
    }

    /** The part of `ProcessTask` on the agent after the execution ID is made. */
    method Run(task: GoTask.Fields, id: string, execErr: Option<string>, elapsed: nat, now: nat)
      returns (err: Option<string>, notice: Option<Completion>)
      modifies this
      ensures Snapshot() == Ran(old(Snapshot()), task, id, execErr, elapsed, now) && globalState == old(globalState)
      ensures err == execErr && notice == Notice(old(Snapshot()), task, execErr)
    {
      Settle(task, execErr.Some?);
      Record(Started(id, task, now), Finished(id, task, now, execErr, elapsed));
      notice := if notifies then Some(Completion(task.id, name, execErr.None?)) else None;
      err := execErr;
    }

    /** The history part of `ProcessTask`: the started entry is added, and as
        the history holds the pointer the run then fills in, it becomes the
        final entry before the update by ID. */
    method Record(started: ExecutionHistory, h: ExecutionHistory)
      modifies this
      ensures Snapshot() == old(Snapshot()).(executionHistory :=
        GoHistory.Upserted(Bounded(old(executionHistory), h, GoHistory.HistoryMaxSize), h))
      ensures globalState == old(globalState)
    {
      BoundedLast(executionHistory, started, h, GoHistory.HistoryMaxSize);
      AddExecutionHistory(started);
      FillLast(h);
      UpdateExecutionHistory(h);
    }

    /** The entry the history holds last becomes `h`. */
    method FillLast(h: ExecutionHistory)
      requires executionHistory != []
      modifies this
      ensures Snapshot() == old(Snapshot()).(executionHistory := old(executionHistory)[|old(executionHistory)| - 1 := h])
      ensures globalState == old(globalState)
    {
      executionHistory := executionHistory[|executionHistory| - 1 := h];
    }

    /** The `UpdateTask` calls of `ProcessTask`: the task is marked assigned
        to this agent, then given the outcome, if the run got that far. */
    method Publish(id: string, outcome: Option<string>)
      modifies if globalState.Some? then {globalState.value} else {}
      ensures globalState.Some? ==> globalState.value.Snapshot() == old(globalState.value.Snapshot()).(
        tasks := Marked(old(globalState.value.tasks), id, name, outcome),
        version := old(globalState.value.version) + GlobalBumps(old(globalState.value.tasks), true, id, outcome))
    {
      if globalState.Some? {
        globalState.value.UpdateTask(id, MarkTask(GoTask.Assigned, Some(name)));
        if outcome.Some? {
          globalState.value.UpdateTask(id, MarkTask(outcome.value, None));
        }
      }
    }

    /** `ProcessTask`. A stopped agent refuses the task and changes nothing.
        Otherwise the task joins the current tasks and is marked assigned; if
        no execution ID can be made the call fails there. With an ID, the
        entry recorded for the run ends in its final form; the task is
        completed or stays current as `execErr` says, in the agent and in the
        global state; the callback, when set, hears of the outcome; `execErr`
        is returned. (The agent and the global state are separate objects, so
        the model updates the one and then the other.) */
    method ProcessTask(task: GoTask.Fields, uuid: Option<string>, execErr: Option<string>, elapsed: nat, now: nat)
      returns (err: Option<string>, notice: Option<Completion>)
      modifies this, if globalState.Some? then {globalState.value} else {}
      ensures Snapshot() == Processed(old(Snapshot()), task, uuid, execErr, elapsed, now) && globalState == old(globalState)
      ensures !old(running) || uuid.None? ==> err.Some? && notice == None
      ensures old(running) && uuid.Some? ==> err == execErr && notice == Notice(old(Snapshot()), task, execErr)
      ensures globalState.Some? ==> globalState.value.Snapshot() == old(globalState.value.Snapshot()).(
        tasks := if old(running) then Marked(old(globalState.value.tasks), task.id, old(name), Outcome(uuid, execErr))
                 else old(globalState.value.tasks),
        version := old(globalState.value.version) +
          GlobalBumps(old(globalState.value.tasks), old(running), task.id, Outcome(uuid, execErr)))
    {
      if !running {
        return Some("agent is not running"), None;
      }
      err, notice := Accept(task, uuid, execErr, elapsed, now);
    }

    /** `ProcessTask` past the running check. */
    method Accept(task: GoTask.Fields, uuid: Option<string>, execErr: Option<string>, elapsed: nat, now: nat)
      returns (err: Option<string>, notice: Option<Completion>)
      requires running
      modifies this, if globalState.Some? then {globalState.value} else {}
      ensures Snapshot() == Processed(old(Snapshot()), task, uuid, execErr, elapsed, now) && globalState == old(globalState)
      ensures uuid.None? ==> err.Some? && notice == None
      ensures uuid.Some? ==> err == execErr && notice == Notice(old(Snapshot()), task, execErr)
      ensures globalState.Some? ==> globalState.value.Snapshot() == old(globalState.value.Snapshot()).(
        tasks := Marked(old(globalState.value.tasks), task.id, old(name), Outcome(uuid, execErr)),
        version := old(globalState.value.version) +
          GlobalBumps(old(globalState.value.tasks), true, task.id, Outcome(uuid, execErr)))
    {
      TakeTask(task, now);
      if uuid.None? {
        Publish(task.id, None);
        return Some("failed to create execution history"), None;
      }
      err, notice := Run(task, uuid.value, execErr, elapsed, now);
      Publish(task.id, Outcome(uuid, execErr));
    }
  }

  /** Overwriting the appended entry is appending the new one. */
  lemma BoundedLast<T>(h: seq<T>, x: T, y: T, cap: nat)
    requires cap > 0
    ensures var b := Bounded(h, x, cap); b[|b| - 1 := y] == Bounded(h, y, cap)
  {
  }

  /** The agent once the task has joined its current tasks. */
  function Taken(f: Fields, task: GoTask.Fields, now: nat): Fields
  {
    f.(currentTasks := f.currentTasks + [task], workload := |f.currentTasks| + 1, lastActive := now)
  }

  /** The agent once the outcome is known. */
  function Settled(f: Fields, task: GoTask.Fields, failed: bool): Fields
  {
    if failed then f.(workload := |f.currentTasks|)
    else
      var current := Without(f.currentTasks, task.id);
      f.(completedTasks := f.completedTasks + [task], currentTasks := current, workload := |current|)
  }

  /** The agent once the run is over and its entry is final. */
  function Ran(f: Fields, task: GoTask.Fields, id: string, execErr: Option<string>, elapsed: nat, now: nat): Fields
  {
    var h := Finished(id, task, now, execErr, elapsed);
    Settled(f, task, execErr.Some?).(executionHistory :=
      GoHistory.Upserted(Bounded(f.executionHistory, h, GoHistory.HistoryMaxSize), h))
  }

  /** The agent after `ProcessTask`. */
  function Processed(f: Fields, task: GoTask.Fields, uuid: Option<string>, execErr: Option<string>, elapsed: nat, now: nat): Fields
  {
    if !f.running then f
    else if uuid.None? then Taken(f, task, now)
    else Ran(Taken(f, task, now), task, uuid.value, execErr, elapsed, now)
  }

  /** What the callback hears, if one is set. */
  function Notice(f: Fields, task: GoTask.Fields, execErr: Option<string>): Option<Completion>
  {
    if f.notifies then Some(Completion(task.id, f.name, execErr.None?)) else None
  }

  /** The status the run leaves the task in, if it got past the execution ID. */
  function Outcome(uuid: Option<string>, execErr: Option<string>): Option<string>
  {
    if uuid.None? then None else if execErr.Some? then Some(GoTask.Failed) else Some(GoTask.Completed)
  }

  /** The version steps `ProcessTask` makes in the global state. */
  function GlobalBumps(tasks: map<string, Task>, running: bool, id: string, outcome: Option<string>): nat
  {
    if !running || id !in tasks then 0 else if outcome.None? then 1 else 2
  }

  /** Every outcome keeps the workload equal to the number of current tasks. */
  lemma ProcessedValid(f: Fields, task: GoTask.Fields, uuid: Option<string>, execErr: Option<string>, elapsed: nat, now: nat)
    requires f.workload == |f.currentTasks|
    ensures var g := Processed(f, task, uuid, execErr, elapsed, now);
      g.workload == |g.currentTasks| && g.name == f.name && g.running == f.running &&
      g.messages == f.messages && g.inbox == f.inbox && g.notifies == f.notifies
  {
  }

  /** A successful run under a fresh execution ID, of a task not already
      current, leaves the current tasks as they were, adds the task to the
      completed ones, and appends exactly its final entry to the history. */
  lemma ProcessedSuccess(f: Fields, task: GoTask.Fields, id: string, elapsed: nat, now: nat)
    requires f.running
    requires forall k :: 0 <= k < |f.currentTasks| ==> f.currentTasks[k].id != task.id
    requires forall k :: 0 <= k < |f.executionHistory| ==> f.executionHistory[k].executionId != id
    ensures var g := Processed(f, task, Some(id), None, elapsed, now);
      g.currentTasks == f.currentTasks && g.completedTasks == f.completedTasks + [task] &&
      g.executionHistory == Bounded(f.executionHistory, Finished(id, task, now, None, elapsed), GoHistory.HistoryMaxSize)
  {
    var h := Finished(id, task, now, None, elapsed);
    var g := Processed(f, task, Some(id), None, elapsed, now);
    assert g == Ran(Taken(f, task, now), task, id, None, elapsed, now);
    assert g.currentTasks == Without(f.currentTasks + [task], task.id);
    assert g.executionHistory == GoHistory.Upserted(Bounded(f.executionHistory, h, GoHistory.HistoryMaxSize), h);
    SuccessRestoresCurrent(f.currentTasks, task);
    FreshEntry(f.executionHistory, h);
  }

  /** A failed run keeps the task among the current ones, completes nothing,
      and records the error in the final entry. */
  lemma ProcessedFailure(f: Fields, task: GoTask.Fields, id: string, e: string, elapsed: nat, now: nat)
    requires f.running
    requires forall k :: 0 <= k < |f.executionHistory| ==> f.executionHistory[k].executionId != id
    ensures var g := Processed(f, task, Some(id), Some(e), elapsed, now);
      g.currentTasks == f.currentTasks + [task] && g.completedTasks == f.completedTasks &&
      var b := g.executionHistory;
      b == Bounded(f.executionHistory, Finished(id, task, now, Some(e), elapsed), GoHistory.HistoryMaxSize) &&
      b[|b| - 1].status == "failed" && b[|b| - 1].errorMessage == e
  {
    var h := Finished(id, task, now, Some(e), elapsed);
    var g := Processed(f, task, Some(id), Some(e), elapsed, now);
    assert g == Ran(Taken(f, task, now), task, id, Some(e), elapsed, now);
    assert g.executionHistory == GoHistory.Upserted(Bounded(f.executionHistory, h, GoHistory.HistoryMaxSize), h);
    FreshEntry(f.executionHistory, h);
  }

  /** An entry under a fresh execution ID is appended and its update finds
      only itself. */
  lemma FreshEntry(hs: seq<ExecutionHistory>, h: ExecutionHistory)
    requires forall k :: 0 <= k < |hs| ==> hs[k].executionId != h.executionId
    ensures GoHistory.Upserted(Bounded(hs, h, GoHistory.HistoryMaxSize), h) == Bounded(hs, h, GoHistory.HistoryMaxSize)
  {
    GoHistory.AddThenUpdate(hs, h, h);
    var b := Bounded(hs, h, GoHistory.HistoryMaxSize);
    assert b[|b| - 1 := h] == b;
  }

  /** The global state ends with the task assigned to the agent and in the
      state the run reached; no other task changes. */
  lemma GlobalOutcome(tasks: map<string, Task>, id: string, name: string, uuid: Option<string>, execErr: Option<string>)
    requires id in tasks
    ensures var m := Marked(tasks, id, name, Outcome(uuid, execErr));
      m.Keys == tasks.Keys && (forall k :: k in tasks && k != id ==> m[k] == tasks[k]) &&
      m[id].assignedTo == name &&
      m[id].status == (if uuid.None? then GoTask.Assigned else if execErr.None? then GoTask.Completed else GoTask.Failed)
  {
  }

  /** A task whose ID is not among the current tasks leaves them as they were
      once it has been processed successfully. */
  lemma SuccessRestoresCurrent(current: seq<GoTask.Fields>, task: GoTask.Fields)
    requires forall k :: 0 <= k < |current| ==> current[k].id != task.id
    ensures Without(current + [task], task.id) == current
  {
    var s := current + [task];
    assert GoAgentState.FindId(s, task.id) == |current| by {
      assert s[|current|].id == task.id;
      assert forall j :: 0 <= j < |current| ==> s[j] == current[j];
    }
    assert RemoveAt(s, |current|) == current;
  }

  /** An earlier current task with the same ID is the one a success removes,
      so the new copy stays behind. */
  lemma SuccessRemovesEarlierCopy(current: seq<GoTask.Fields>, task: GoTask.Fields, i: nat)
    requires i < |current| && current[i].id == task.id
    requires forall j :: 0 <= j < i ==> current[j].id != task.id
    ensures Without(current + [task], task.id) == RemoveAt(current, i) + [task]
  {
    var s := current + [task];
    assert GoAgentState.FindId(s, task.id) == i by {
      assert s[i] == current[i];
      assert forall j :: 0 <= j < i ==> s[j] == current[j];
    }
  }
}
