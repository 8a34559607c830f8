// state/global_state.go: the company-wide state. Every writer that the Go code
// documents as a state change bumps `Version` by one; the two append-only
// logs and the updaters on a missing key do not. The `any`-valued maps with
// no operation of their own (strategic goals, market data, budget allocation
// and the rest) are kept together under their JSON names, as are the three
// lists of records, so that `ClearAll` can be stated over them.
module GoGlobalState {
  import opened Wrappers
  import opened GoTypes
  import GoAgentState

  /** The JSON names of the `map[string]any` fields that only `ClearAll` touches. */
  const DocumentNames: seq<string> := [
    "strategic_goals", "market_data", "budget_allocation", "financial_metrics",
    "campaign_metrics", "campaign_data", "brand_data", "industry_reports",
    "historical_cashflow", "competitor_data", "customer_data", "product_data",
    "business_metrics", "historical_financials"]

  /** The JSON names of the `[]map[string]any` fields. */
  const RecordNames: seq<string> := ["user_feedback", "product_backlog", "technical_debt"]

  function EmptyDocuments(): (m: map<string, map<string, Value>>)
    ensures forall k :: k in m <==> k in DocumentNames
    ensures forall k :: k in m ==> m[k] == map[]
  {
    map k | k in DocumentNames :: map[]
  }

  function EmptyRecords(): (m: map<string, seq<map<string, Value>>>)
    ensures forall k :: k in m <==> k in RecordNames
    ensures forall k :: k in m ==> m[k] == []
  {
    map k | k in RecordNames :: []
  }

  /** `GlobalStateConfig`. */
  datatype Config = Config(maxTasks: int, maxMessages: int, maxExecHistory: int)

  function DefaultGlobalStateConfig(): (c: Config)
    ensures c.maxTasks == c.maxMessages == c.maxExecHistory == 10000
  {
    Config(10000, 10000, 10000)
  }

  /** Every field of the global state as one value. */
  datatype Fields = Fields(
    agents: map<string, GoAgentState.AgentState>, tasks: map<string, Task>,
    messages: seq<Message>, currentTime: nat, kpis: map<string, real>,
    systemHealth: map<string, Value>, documents: map<string, map<string, Value>>,
    records: map<string, seq<map<string, Value>>>, announcements: seq<string>,
    execHistory: seq<ExecutionHistory>, version: int)

  /** The filter of `GetMessagesByReceiver`. */
  function ToReceiver(receiver: string): Message -> bool
  {
    (m: Message) => m.receiver == receiver
  }

  class GlobalState {
    var agents: map<string, GoAgentState.AgentState>
    var tasks: map<string, Task>
    var messages: seq<Message>
    var currentTime: nat
    var kpis: map<string, real>
    var systemHealth: map<string, Value>
    var documents: map<string, map<string, Value>>
    var records: map<string, seq<map<string, Value>>>
    var announcements: seq<string>
    var execHistory: seq<ExecutionHistory>
    var version: int

    function Snapshot(): Fields
      reads this
    {
      Fields(agents, tasks, messages, currentTime, kpis, systemHealth, documents,
             records, announcements, execHistory, version)
    }

    /** `NewGlobalState`: every collection empty, version 0, the clock at `now`. */
    constructor (now: nat)
      ensures Snapshot() == Fields(map[], map[], [], now, map[], map[], EmptyDocuments(),
                                   EmptyRecords(), [], [], 0)
    {
      agents, tasks, messages, currentTime := map[], map[], [], now;
      kpis, systemHealth, documents, records := map[], map[], EmptyDocuments(), EmptyRecords();
      announcements, execHistory, version := [], [], 0;
    }

    /** A nil pointer for an unknown name. */
    function GetAgentState(name: string): (r: Option<GoAgentState.AgentState>)
      reads this
      ensures r.Some? <==> name in agents
      ensures r.Some? ==> r.value == agents[name]
    {
      if name in agents then Some(agents[name]) else None
    }

    method SetAgentState(name: string, st: GoAgentState.AgentState)
      modifies this
      ensures Snapshot() == old(Snapshot()).(agents := old(agents)[name := st], version := old(version) + 1)
      ensures GetAgentState(name) == Some(st)
    {
      agents := agents[name := st];
      version := version + 1;
    }

    /** The updater runs on the stored agent state only when the name is known;
        an unknown name leaves everything, the version included, as it was. */
    method UpdateAgentState(name: string, updater: GoAgentState.Fields -> GoAgentState.Fields)
      modifies this, if name in agents then {agents[name]} else {}
      ensures name !in old(agents) ==> Snapshot() == old(Snapshot())
      ensures name in old(agents) ==>
        Snapshot() == old(Snapshot()).(version := old(version) + 1)
        && agents[name].Snapshot() == updater(old(agents[name].Snapshot()))
    {
      if name in agents {
        var agent := agents[name];
        agent.Restore(updater(agent.Snapshot()));
        version := version + 1;
      }
    }

    method DeleteAgentState(name: string)
      modifies this
      ensures Snapshot() == old(Snapshot()).(agents := old(agents) - {name}, version := old(version) + 1)
      ensures GetAgentState(name) == None
    {
      agents := agents - {name};
      version := version + 1;
    }

    /** A fresh `NewAgentState` stored under the name, replacing any earlier one. */
    method CreateAgentState(name: string, now: nat) returns (st: GoAgentState.AgentState)
      modifies this
      ensures fresh(st) && st.Snapshot() == GoAgentState.Fields(name, [], [], [], map[], 0, now, [], 3)
      ensures Snapshot() == old(Snapshot()).(agents := old(agents)[name := st], version := old(version) + 1)
    {
      st := new GoAgentState.AgentState(name, now);
      agents := agents[name := st];
      version := version + 1;
    }

    /** Keyed by the task's own ID; an earlier task with that ID is replaced. */
    method AddTask(task: Task)
      modifies this
      ensures Snapshot() == old(Snapshot()).(tasks := old(tasks)[task.taskId := task], version := old(version) + 1)
      ensures GetTask(task.taskId) == Some(task)
    {
      tasks := tasks[task.taskId := task];
      version := version + 1;
    }

    /** A nil pointer for an unknown ID. */
    function GetTask(taskId: string): (r: Option<Task>)
      reads this
      ensures r.Some? <==> taskId in tasks
      ensures r.Some? ==> r.value == tasks[taskId]
    {
      if taskId in tasks then Some(tasks[taskId]) else None
    }

    /** As `UpdateAgentState`: a missing ID changes nothing. */
    method UpdateTask(taskId: string, updater: Task -> Task)
      modifies this
      ensures taskId !in old(tasks) ==> Snapshot() == old(Snapshot())
      ensures taskId in old(tasks) ==>
        Snapshot() == old(Snapshot()).(tasks := old(tasks)[taskId := updater(old(tasks)[taskId])],
                                       version := old(version) + 1)
    {
      if taskId in tasks {
        tasks := tasks[taskId := updater(tasks[taskId])];
        version := version + 1;
      }
    }

    method DeleteTask(taskId: string)
      modifies this
      ensures Snapshot() == old(Snapshot()).(tasks := old(tasks) - {taskId}, version := old(version) + 1)
      ensures GetTask(taskId) == None
    {
      tasks := tasks - {taskId};
      version := version + 1;
    }

    method AddMessage(msg: Message)
      modifies this
      ensures Snapshot() == old(Snapshot()).(messages := old(messages) + [msg], version := old(version) + 1)
    {
      messages := messages + [msg];
      version := version + 1;
    }

    /** The messages addressed to `receiver`, in arrival order. */
    method GetMessagesByReceiver(receiver: string) returns (r: seq<Message>)
      ensures r == Filter(messages, ToReceiver(receiver))
      ensures forall i :: 0 <= i < |r| ==> r[i].receiver == receiver && r[i] in messages
      ensures forall i :: 0 <= i < |messages| && messages[i].receiver == receiver ==> messages[i] in r
    {
      r := [];
      var i := 0;
      while i < |messages|
        invariant 0 <= i <= |messages|
        invariant r == Filter(messages[..i], ToReceiver(receiver))
      {
        assert messages[..i + 1][..i] == messages[..i];
        if messages[i].receiver == receiver {
          r := r + [messages[i]];
        }
        i := i + 1;
      }
      assert messages[..i] == messages;
    }

    method SetKPI(key: string, value: real)
      modifies this
      ensures Snapshot() == old(Snapshot()).(kpis := old(kpis)[key := value], version := old(version) + 1)
      ensures GetKPI(key) == value
    {
      kpis := kpis[key := value];
      version := version + 1;
    }

    /** A missing KPI reads as the zero value. */
    function GetKPI(key: string): (v: real)
      reads this
      ensures key !in kpis ==> v == 0.0
      ensures key in kpis ==> v == kpis[key]
    {
      if key in kpis then kpis[key] else 0.0
    }

    method SetSystemHealth(key: string, value: Value)
      modifies this
      ensures Snapshot() == old(Snapshot()).(systemHealth := old(systemHealth)[key := value],
                                             version := old(version) + 1)
    {
      systemHealth := systemHealth[key := value];
      version := version + 1;
    }

    /** Appends without bumping the version. */
    method AddExecutionHistory(h: ExecutionHistory)
      modifies this
      ensures Snapshot() == old(Snapshot()).(execHistory := old(execHistory) + [h])
    {
      execHistory := execHistory + [h];
    }

    /** The name is never consulted: every entry comes back, in order. */
    method GetExecutionHistoryByAgent(name: string) returns (r: seq<ExecutionHistory>)
      ensures r == execHistory
    {
      r := [];
      var i := 0;
      while i < |execHistory|
        invariant 0 <= i <= |execHistory|
        invariant r == execHistory[..i]
      {
        r := r + [execHistory[i]];
        i := i + 1;
      }
    }

    /** The last `min(count, total)` entries in order; none for `count <= 0`. */
    function GetRecentExecutions(count: int): (r: seq<ExecutionHistory>)
      reads this
      ensures count <= 0 ==> r == []
      ensures count > 0 ==> |r| == Min(count, |execHistory|)
      ensures r == execHistory[|execHistory| - |r|..]
    {
      Recent(execHistory, count)
    }

    method UpdateCurrentTime(t: nat)
      modifies this
      ensures Snapshot() == old(Snapshot()).(currentTime := t, version := old(version) + 1)
    {
      currentTime := t;
      version := version + 1;
    }

    method ClearTasks()
      modifies this
      ensures Snapshot() == old(Snapshot()).(tasks := map[], version := old(version) + 1)
    {
      tasks := map[];
      version := version + 1;
    }

    method ClearMessages()
      modifies this
      ensures Snapshot() == old(Snapshot()).(messages := [], version := old(version) + 1)
    {
      messages := [];
      version := version + 1;
    }

    /** Every collection emptied, the clock reset to `now`, one version bump. */
    method ClearAll(now: nat)
      modifies this
      ensures Snapshot() == Fields(map[], map[], [], now, map[], map[], EmptyDocuments(),
                                   EmptyRecords(), [], [], old(version) + 1)
    {
      agents, tasks, messages, currentTime := map[], map[], [], now;
      kpis, systemHealth, documents, records := map[], map[], EmptyDocuments(), EmptyRecords();
      announcements, execHistory := [], [];
      version := version + 1;
    }

    /** `Set` writes the system-health map, like `SetSystemHealth`, and never fails. */
    method Set(key: string, value: Value) returns (err: Option<string>)
      modifies this
      ensures err == None
      ensures Snapshot() == old(Snapshot()).(systemHealth := old(systemHealth)[key := value],
                                             version := old(version) + 1)
      ensures Get(key) == Ok(value)
    {
      systemHealth := systemHealth[key := value];
      version := version + 1;
      err := None;
    }

    /** A missing key is an error ("key ... not found"). */
    function Get(key: string): (r: Result<Value, string>)
      reads this
      ensures r.Ok? <==> key in systemHealth
      ensures r.Ok? ==> r.value == systemHealth[key]
    {
      if key in systemHealth then Ok(systemHealth[key]) else Err("key " + key + " not found")
    }

    /** Appends without bumping the version (the Go code even holds only the read lock). */
    method AddPublicAnnouncement(announcement: string)
      modifies this
      ensures Snapshot() == old(Snapshot()).(announcements := old(announcements) + [announcement])
    {
      announcements := announcements + [announcement];
    }
  }
}
