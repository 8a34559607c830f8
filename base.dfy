// src/agents/base.py: the role, message-type and priority enums, the
// Message / Task / AgentState records, the workload bookkeeping of
// BaseAgent, the CommunicationProtocol constructors and the KPI helper.
module Base {
  import opened Wrappers
  import opened Py
  import Clock
  import Strings

  datatype Role = CEO | CTO | CPO | CMO | CFO | HR | RD | DataAnalyst | CustomerSupport | Operations

  const AllRoles: seq<Role> := [CEO, CTO, CPO, CMO, CFO, HR, RD, DataAnalyst, CustomerSupport, Operations]

  function RoleValue(r: Role): string
  {
    match r
    case CEO => "ceo" case CTO => "cto" case CPO => "cpo" case CMO => "cmo" case CFO => "cfo"
    case HR => "hr" case RD => "rd" case DataAnalyst => "data_analyst"
    case CustomerSupport => "customer_support" case Operations => "operations"
  }

  function RoleName(r: Role): string
  {
    match r
    case CEO => "CEO" case CTO => "CTO" case CPO => "CPO" case CMO => "CMO" case CFO => "CFO"
    case HR => "HR" case RD => "RD" case DataAnalyst => "DATA_ANALYST"
    case CustomerSupport => "CUSTOMER_SUPPORT" case Operations => "OPERATIONS"
  }

  /** `AgentRole(s)` on a string: the member with that value, else ValueError. */
  function RoleFromValue(s: string): (r: Option<Role>)
    ensures r.Some? ==> RoleValue(r.value) == s
    ensures r.None? ==> forall x: Role :: RoleValue(x) != s
  {
    if s == "ceo" then Some(CEO) else if s == "cto" then Some(CTO)
    else if s == "cpo" then Some(CPO) else if s == "cmo" then Some(CMO)
    else if s == "cfo" then Some(CFO) else if s == "hr" then Some(HR)
    else if s == "rd" then Some(RD) else if s == "data_analyst" then Some(DataAnalyst)
    else if s == "customer_support" then Some(CustomerSupport)
    else if s == "operations" then Some(Operations) else None
  }

  datatype MessageType =
    TaskAssignment | StatusReport | DataRequest | DataResponse
    | ApprovalRequest | ApprovalResponse | Alert | Collaboration

  function TypeValue(t: MessageType): string
  {
    match t
    case TaskAssignment => "task_assignment" case StatusReport => "status_report"
    case DataRequest => "data_request" case DataResponse => "data_response"
    case ApprovalRequest => "approval_request" case ApprovalResponse => "approval_response"
    case Alert => "alert" case Collaboration => "collaboration"
  }

  function TypeName(t: MessageType): string
  {
    match t
    case TaskAssignment => "TASK_ASSIGNMENT" case StatusReport => "STATUS_REPORT"
    case DataRequest => "DATA_REQUEST" case DataResponse => "DATA_RESPONSE"
    case ApprovalRequest => "APPROVAL_REQUEST" case ApprovalResponse => "APPROVAL_RESPONSE"
    case Alert => "ALERT" case Collaboration => "COLLABORATION"
  }

  function TypeFromValue(s: string): (r: Option<MessageType>)
    ensures r.Some? ==> TypeValue(r.value) == s
    ensures r.None? ==> forall x: MessageType :: TypeValue(x) != s
  {
    if s == "task_assignment" then Some(TaskAssignment)
    else if s == "status_report" then Some(StatusReport)
    else if s == "data_request" then Some(DataRequest)
    else if s == "data_response" then Some(DataResponse)
    else if s == "approval_request" then Some(ApprovalRequest)
    else if s == "approval_response" then Some(ApprovalResponse)
    else if s == "alert" then Some(Alert)
    else if s == "collaboration" then Some(Collaboration) else None
  }

  datatype Priority = Low | Medium | High | Critical

  function PriorityValue(p: Priority): string
  {
    match p case Low => "low" case Medium => "medium" case High => "high" case Critical => "critical"
  }

  function PriorityName(p: Priority): string
  {
    match p case Low => "LOW" case Medium => "MEDIUM" case High => "HIGH" case Critical => "CRITICAL"
  }

  function PriorityFromValue(s: string): (r: Option<Priority>)
    ensures r.Some? ==> PriorityValue(r.value) == s
    ensures r.None? ==> forall x: Priority :: PriorityValue(x) != s
  {
    if s == "low" then Some(Low) else if s == "medium" then Some(Medium)
    else if s == "high" then Some(High) else if s == "critical" then Some(Critical) else None
  }

  /** An enum member as a Python object: its attribute dict holds value, name and class. */
  function EnumObj(cls: string, name: string, value: string): Obj
  {
    PObject([("_value_", PStr(value)), ("_name_", PStr(name)), ("__objclass__", EnumClass(cls))])
  }

  /** The class an enum member reports, as Python prints it. */
  function EnumClass(cls: string): Obj { POther("<enum '" + cls + "'>") }

  function RoleObj(r: Role): Obj { EnumObj("AgentRole", RoleName(r), RoleValue(r)) }
  function TypeObj(t: MessageType): Obj { EnumObj("MessageType", TypeName(t), TypeValue(t)) }
  function PriorityObj(p: Priority): Obj { EnumObj("Priority", PriorityName(p), PriorityValue(p)) }

  /** `AgentRole(o)`: a member is returned as it is, a string is looked up by value, anything else is a ValueError. */
  function RoleOf(o: Obj): Option<Role>
  {
    match o
    case PStr(s) => RoleFromValue(s)
    case PObject(attrs) =>
      if |attrs| == 3 && attrs[2].1 == EnumClass("AgentRole") && attrs[0].1.PStr? then
        RoleFromValue(attrs[0].1.s)
      else None
    case _ => None
  }

  function TypeOf(o: Obj): Option<MessageType>
  {
    match o
    case PStr(s) => TypeFromValue(s)
    case PObject(attrs) =>
      if |attrs| == 3 && attrs[2].1 == EnumClass("MessageType") && attrs[0].1.PStr? then
        TypeFromValue(attrs[0].1.s)
      else None
    case _ => None
  }

  function PriorityOf(o: Obj): Option<Priority>
  {
    match o
    case PStr(s) => PriorityFromValue(s)
    case PObject(attrs) =>
      if |attrs| == 3 && attrs[2].1 == EnumClass("Priority") && attrs[0].1.PStr? then
        PriorityFromValue(attrs[0].1.s)
      else None
    case _ => None
  }

  /** Looking a role up by its value gives the member back. */
  lemma RoleValueRoundTrip(r: Role)
    ensures RoleFromValue(RoleValue(r)) == Some(r)
  {
    match r
    case CEO => case CTO => case CPO => case CMO => case CFO =>
    case HR => case RD => case DataAnalyst => case CustomerSupport => case Operations =>
  }

  /** `AgentRole(...)` on the member itself or on its value gives the member back. */
  lemma RoleRoundTrip(r: Role)
    ensures RoleOf(RoleObj(r)) == Some(r) && RoleOf(PStr(RoleValue(r))) == Some(r)
  {
    RoleValueRoundTrip(r);
    var attrs := RoleObj(r).attrs;
    assert |attrs| == 3 && attrs[0].1 == PStr(RoleValue(r)) && attrs[2].1 == EnumClass("AgentRole");
  }

  lemma TypeValueRoundTrip(t: MessageType)
    ensures TypeFromValue(TypeValue(t)) == Some(t)
  {
    match t
    case TaskAssignment => case StatusReport => case DataRequest => case DataResponse =>
    case ApprovalRequest => case ApprovalResponse => case Alert => case Collaboration =>
  }

  lemma TypeRoundTrip(t: MessageType)
    ensures TypeOf(TypeObj(t)) == Some(t) && TypeOf(PStr(TypeValue(t))) == Some(t)
  {
    TypeValueRoundTrip(t);
    var attrs := TypeObj(t).attrs;
    assert |attrs| == 3 && attrs[0].1 == PStr(TypeValue(t)) && attrs[2].1 == EnumClass("MessageType");
  }

  lemma PriorityRoundTrip(p: Priority)
    ensures PriorityFromValue(PriorityValue(p)) == Some(p)
    ensures PriorityOf(PriorityObj(p)) == Some(p) && PriorityOf(PStr(PriorityValue(p))) == Some(p)
  {
    match p case Low => case Medium => case High => case Critical =>
  }

  datatype Message = Message(
    sender: Role, recipient: Role, messageType: MessageType, content: Entries,
    priority: Priority, timestamp: nat, messageId: string)

  datatype Task = Task(
    taskId: string, title: string, description: string,
    assignedTo: Role, assignedBy: Role, priority: Priority,
    status: string, dependencies: seq<string>, deliverables: seq<string>,
    deadline: Option<nat>, createdAt: nat, updatedAt: nat, metadata: Entries)

  /** The `Task(...)` constructor with its field defaults (status pending, empty lists, no deadline). */
  function NewTask(id: string, title: string, description: string, assignee: Role, assigner: Role,
                   priority: Priority, deadline: Option<nat>, now: nat): (t: Task)
    ensures t.status == "pending" && t.dependencies == [] && t.deliverables == [] && t.metadata == []
    ensures t.createdAt == now && t.updatedAt == now
  {
    Task(id, title, description, assignee, assigner, priority, "pending", [], [], deadline, now, now, [])
  }

  function Stamp(t: nat): Obj { PDateTime(t) }

  function OptStamp(t: Option<nat>): Obj
  {
    match t case None => PNone case Some(v) => PDateTime(v)
  }

  /** `task.__dict__`: the dataclass fields in declaration order. */
  function TaskAttrs(t: Task): seq<(string, Obj)>
  {
    [("task_id", PStr(t.taskId)), ("title", PStr(t.title)), ("description", PStr(t.description)),
     ("assigned_to", RoleObj(t.assignedTo)), ("assigned_by", RoleObj(t.assignedBy)),
     ("priority", PriorityObj(t.priority)), ("status", PStr(t.status)),
     ("dependencies", PList(StrList(t.dependencies))), ("deliverables", PList(StrList(t.deliverables))),
     ("deadline", OptStamp(t.deadline)), ("created_at", Stamp(t.createdAt)),
     ("updated_at", Stamp(t.updatedAt)), ("metadata", PDict(t.metadata))]
  }

  function TaskObj(t: Task): Obj { PObject(TaskAttrs(t)) }

  /** `message.__dict__`. */
  function MessageAttrs(m: Message): seq<(string, Obj)>
  {
    [("sender", RoleObj(m.sender)), ("recipient", RoleObj(m.recipient)),
     ("message_type", TypeObj(m.messageType)), ("content", PDict(m.content)),
     ("priority", PriorityObj(m.priority)), ("timestamp", Stamp(m.timestamp)),
     ("message_id", PStr(m.messageId))]
  }

  function MessageObj(m: Message): Obj { PObject(MessageAttrs(m)) }

  datatype AgentState = AgentState(
    role: Role, currentTasks: seq<Task>, completedTasks: seq<Task>, messages: seq<Message>,
    performanceMetrics: seq<(string, real)>, capabilities: seq<string>,
    workload: real, lastActive: nat)

  /**
   * `AgentRole(v)` / `Priority(v)`: a member of the enum is returned as it
   * is, a value string names its member, anything else is a ValueError.
   */
  function RoleByValue(o: Obj): (r: Result<Role, PyError>)
    ensures r.Ok? <==> RoleOf(o).Some?
    ensures r.Ok? ==> RoleOf(o) == Some(r.value)
    ensures o.PStr? && r.Ok? ==> o.s == RoleValue(r.value)
    ensures r.Err? ==> r.error == ValueError
  {
    match RoleOf(o) case None => Err(ValueError) case Some(role) => Ok(role)
  }

  function PriorityByValue(o: Obj): (r: Result<Priority, PyError>)
    ensures r.Ok? <==> PriorityOf(o).Some?
    ensures r.Ok? ==> PriorityOf(o) == Some(r.value)
    ensures o.PStr? && r.Ok? ==> o.s == PriorityValue(r.value)
    ensures r.Err? ==> r.error == ValueError
  {
    match PriorityOf(o) case None => Err(ValueError) case Some(p) => Ok(p)
  }

  /** The enum calls give back a member passed to them, and the member a value names. */
  lemma ByValueMembers(role: Role, p: Priority)
    ensures RoleByValue(RoleObj(role)) == Ok(role) && RoleByValue(PStr(RoleValue(role))) == Ok(role)
    ensures PriorityByValue(PriorityObj(p)) == Ok(p) && PriorityByValue(PStr(PriorityValue(p))) == Ok(p)
  {
    RoleRoundTrip(role);
    PriorityRoundTrip(p);
  }

  /** `datetime.fromisoformat(v) if v else None`: text that is not a timestamp is a ValueError, other values a TypeError. */
  function DeadlineOf(o: Obj): (r: Result<Option<nat>, PyError>)
    ensures !Truthy(o) ==> r == Ok(None)
    ensures Truthy(o) && o.PStr? && Clock.Parse(o.s).Some? ==> r == Ok(Clock.Parse(o.s))
    ensures Truthy(o) && o.PStr? && Clock.Parse(o.s).None? ==> r == Err(ValueError)
    ensures Truthy(o) && !o.PStr? ==> r == Err(TypeError)
  {
    if !Truthy(o) then Ok(None)
    else if !o.PStr? then Err(TypeError)
    else match Clock.Parse(o.s) case None => Err(ValueError) case Some(t) => Ok(Some(t))
  }

  /** The number of tasks whose status is "failed". */
  function FailedCount(tasks: seq<Task>): (n: nat)
    ensures n <= |tasks|
  {
    if tasks == [] then 0 else (if tasks[0].status == "failed" then 1 else 0) + FailedCount(tasks[1..])
  }

  /** The agents dict of the company state, in insertion order. */
  type AgentsView = seq<(Role, AgentState)>

  /** `agents.get(role)`: the first entry for the role. */
  function AgentOf(agents: AgentsView, role: Role): (r: Option<AgentState>)
    ensures r.None? <==> forall i :: 0 <= i < |agents| ==> agents[i].0 != role
    ensures r.Some? ==> exists i :: 0 <= i < |agents| && agents[i] == (role, r.value)
  {
    AssocGet(agents, role)
  }

  /** `max(0.0, min(1.0, x))`. */
  function Clamp01(x: real): (r: real)
    ensures 0.0 <= r <= 1.0
    ensures 0.0 <= x <= 1.0 ==> r == x
    ensures x < 0.0 ==> r == 0.0
    ensures x > 1.0 ==> r == 1.0
  {
    if x < 0.0 then 0.0 else if x > 1.0 then 1.0 else x
  }

  /** The decision rank of a role; the map covers every role, so the default 0 is never used. */
  function Hierarchy(r: Role): (h: int)
    ensures 4 <= h <= 10
    ensures h == 10 <==> r == CEO
    ensures h == 9 <==> r in {CTO, CPO, CMO, CFO}
  {
    match r
    case CEO => 10 case CTO => 9 case CPO => 9 case CMO => 9 case CFO => 9
    case HR => 8 case Operations => 7 case DataAnalyst => 6 case RD => 5 case CustomerSupport => 4
  }

  lemma HierarchyOrder()
    ensures Hierarchy(CEO) > Hierarchy(CTO) > Hierarchy(HR) > Hierarchy(Operations)
            > Hierarchy(DataAnalyst) > Hierarchy(RD) > Hierarchy(CustomerSupport)
    ensures forall r: Role :: r != CEO ==> Hierarchy(r) < Hierarchy(CEO)
  {
  }

  /** Index of the first task in `ts` whose id is `id`. */
  function FirstTaskIndex(ts: seq<Task>, id: string): (r: Option<nat>)
    ensures r.None? <==> forall i :: 0 <= i < |ts| ==> ts[i].taskId != id
    ensures r.Some? ==> r.value < |ts| && ts[r.value].taskId == id
                        && forall j :: 0 <= j < r.value ==> ts[j].taskId != id
  {
    if ts == [] then None
    else if ts[0].taskId == id then Some(0)
    else match FirstTaskIndex(ts[1..], id)
      case None => None
      case Some(k) => Some(k + 1)
  }

  class BaseAgent {
    const role: Role
    const capabilities: seq<string>
    var state: AgentState

    ghost predicate Valid()
      reads this
    {
      state.role == role && 0.0 <= state.workload <= 1.0
    }

    constructor (role: Role, capabilities: seq<string>, now: nat)
      ensures Valid() && this.role == role && this.capabilities == capabilities
      ensures state == AgentState(role, [], [], [], [], capabilities, 0.0, now)
    {
      this.role := role;
      this.capabilities := capabilities;
      state := AgentState(role, [], [], [], [], capabilities, 0.0, now);
    }

    /** `can_handle_task`. */
    function CanHandleTask(t: Task): (ok: bool)
      reads this
      ensures ok <==> state.workload < 0.8 && t.assignedTo == role
    {
      state.workload < 0.8 && t.assignedTo == role
    }

    /** `has_capabilities`: the required set is empty or its intersection with ours is all of it. */
    function HasCapabilities(required: seq<string>): (ok: bool)
      ensures ok <==> forall i :: 0 <= i < |required| ==> required[i] in capabilities
    {
      var have := set c | c in capabilities;
      var need := set c | c in required;
      assert (have * need == need) <==> need <= have;
      assert need <= have <==> forall i :: 0 <= i < |required| ==> required[i] in capabilities by {
        if need <= have {
          forall i | 0 <= i < |required| ensures required[i] in capabilities {
            assert required[i] in need;
          }
        }
      }
      |need| == 0 || have * need == need
    }

    function RoleHierarchy(): (h: int)
      ensures 4 <= h <= 10
    {
      Hierarchy(role)
    }

    method UpdateWorkload(delta: real, now: nat)
      requires Valid()
      modifies this
      ensures Valid()
      ensures state == old(state).(workload := Clamp01(old(state).workload + delta), lastActive := now)
    {
      state := state.(workload := Clamp01(state.workload + delta), lastActive := now);
    }

    method AddTask(t: Task, now: nat)
      requires Valid()
      modifies this
      ensures Valid()
      ensures state == old(state).(currentTasks := old(state).currentTasks + [t],
                                   workload := Clamp01(old(state).workload + 0.1), lastActive := now)
    {
      state := state.(currentTasks := state.currentTasks + [t]);
      UpdateWorkload(0.1, now);
    }

    /** `complete_task`: the first current task with the id is marked completed and moved. */
    method CompleteTask(id: string, now: nat) returns (r: Option<Task>)
      requires Valid()
      modifies this
      ensures Valid()
      ensures r.None? <==> forall i :: 0 <= i < |old(state).currentTasks| ==> old(state).currentTasks[i].taskId != id
      ensures r.None? ==> state == old(state)
      ensures r.Some? ==>
        var ts := old(state).currentTasks;
        var i := FirstTaskIndex(ts, id).value;
        r.value == ts[i].(status := "completed", updatedAt := now)
        && state == old(state).(currentTasks := ts[..i] + ts[i + 1..],
                                completedTasks := old(state).completedTasks + [r.value],
                                workload := Clamp01(old(state).workload - 0.1), lastActive := now)
    {
      var ts := state.currentTasks;
      var i := 0;
      while i < |ts|
        invariant 0 <= i <= |ts| && state == old(state)
        invariant forall j :: 0 <= j < i ==> ts[j].taskId != id
      {
        if ts[i].taskId == id {
          var done := ts[i].(status := "completed", updatedAt := now);
          state := state.(currentTasks := ts[..i] + ts[i + 1..], completedTasks := state.completedTasks + [done]);
          UpdateWorkload(-0.1, now);
          assert FirstTaskIndex(ts, id) == Some(i);
          return Some(done);
        }
        i := i + 1;
      }
      return None;
    }
  }

  /** `CommunicationProtocol.create_message`. */
  function CreateMessage(sender: Role, recipient: Role, t: MessageType, content: Entries,
                         priority: Priority, now: nat, id: string): (m: Message)
    ensures m.sender == sender && m.recipient == recipient && m.messageType == t
    ensures m.content == content && m.priority == priority
  {
    Message(sender, recipient, t, content, priority, now, id)
  }

  /** `create_task_assignment`: the task's attribute dict under "task", at the task's priority. */
  function CreateTaskAssignment(assigner: Role, assignee: Role, task: Task, now: nat, id: string): (m: Message)
    ensures m.messageType == TaskAssignment && m.sender == assigner && m.recipient == assignee
    ensures m.priority == task.priority
    ensures Lookup(m.content, PStr("task")) == Some(PDict(StrDict(TaskAttrs(task))))
  {
    CreateMessage(assigner, assignee, TaskAssignment, [(PStr("task"), PDict(StrDict(TaskAttrs(task))))],
                  task.priority, now, id)
  }

  /** The `approved` entry of a reply's decision dict. */
  function Verdict(m: Message): Option<Obj>
  {
    match Lookup(m.content, PStr("decision"))
    case Some(PDict(d)) => Lookup(d, PStr("approved"))
    case _ => None
  }

  /** The metadata dict of the task a task assignment carries. */
  function AssignedMetadata(m: Message): Option<Obj>
  {
    match Lookup(m.content, PStr("task"))
    case Some(PDict(e)) => Lookup(e, PStr("metadata"))
    case _ => None
  }

  /** A task assignment carries its task's metadata. */
  lemma AssignmentMetadata(assigner: Role, assignee: Role, task: Task, now: nat, id: string)
    ensures AssignedMetadata(CreateTaskAssignment(assigner, assignee, task, now, id)) == Some(PDict(task.metadata))
  {
    TaskMetadata(task);
  }

  /** The "metadata" entry of a task's `__dict__` is its metadata. */
  lemma TaskMetadata(task: Task)
    ensures Lookup(StrDict(TaskAttrs(task)), PStr("metadata")) == Some(PDict(task.metadata))
  {
    var kvs := TaskAttrs(task);
    assert |kvs[12].0| == 8 && kvs[12].0[0] == 'm';
    forall j | 0 <= j < 12 ensures kvs[j].0 != "metadata" {
      assert kvs[j].0 != [] && kvs[j].0[0] != 'm';
    }
    LookupStrDict(kvs, "metadata", 12);
  }

  /**
   * The role agents' `_handle_task_assignment` pattern: a task whose
   * lower-cased title contains one of `keywords` is re-created for
   * `assignee` (same title, description and requested priority, a deadline
   * parsed from its text) and sent there as a task assignment; any other
   * title gives no message. The new task carries `metadata`. The task must
   * be a dict and its title text.
   */
  function DelegateByTitle(content: Entries, keywords: seq<string>, assigner: Role, assignee: Role,
                           taskId: string, msgId: string, now: nat, metadata: Entries): (r: Result<Option<Message>, PyError>)
    ensures var task := GetS(content, "task", PDict([]));
      !task.PDict? || !GetS(task.entries, "title", PStr("")).PStr? ==> r == Err(AttributeError)
    ensures var task := GetS(content, "task", PDict([]));
      task.PDict? && GetS(task.entries, "title", PStr("")).PStr? ==>
        var title := Strings.Lower(GetS(task.entries, "title", PStr("")).s);
        (r == Ok(None) <==> !Strings.ContainsAny(title, keywords))
        && (r.Ok? && r.value.Some? ==>
              (r.value.value.messageType == TaskAssignment
               && r.value.value.sender == assigner && r.value.value.recipient == assignee
               && PriorityByValue(GetS(task.entries, "priority", PStr("medium"))) == Ok(r.value.value.priority)
               && AssignedMetadata(r.value.value) == Some(PDict(metadata))))
    ensures var task := GetS(content, "task", PDict([]));
      (task.PDict? && GetS(task.entries, "title", PStr("")).PStr? && PriorityByValue(GetS(task.entries, "priority", PStr("medium"))).Err?
       && Strings.ContainsAny(Strings.Lower(GetS(task.entries, "title", PStr("")).s), keywords)) ==> r == Err(ValueError)
  {
    var task := GetS(content, "task", PDict([]));
    if !task.PDict? then Err(AttributeError)
    else
      var title := GetS(task.entries, "title", PStr(""));
      match LowerOf(title)
      case Err(e) => Err(e)
      case Ok(lowered) =>
        if !Strings.ContainsAny(lowered, keywords) then Ok(None)
        else match PriorityByValue(GetS(task.entries, "priority", PStr("medium")))
          case Err(e) => Err(e)
          case Ok(priority) =>
            match DeadlineOf(Get(task.entries, PStr("deadline"), PNone))
            case Err(e) => Err(e)
            case Ok(deadline) =>
              var t := NewTask(taskId, title.s, Show(GetS(task.entries, "description", PStr(""))), assignee, assigner,
                               priority, deadline, now).(metadata := metadata);
              AssignmentMetadata(assigner, assignee, t, now, msgId);
              Ok(Some(CreateTaskAssignment(assigner, assignee, t, now, msgId)))
  }

  /** The title entry of a task's `__dict__`. */
  lemma TaskTitle(task: Task)
    ensures Lookup(StrDict(TaskAttrs(task)), PStr("title")) == Some(PStr(task.title))
  {
    var kvs := TaskAttrs(task);
    assert kvs[0].0 != "title" by { assert kvs[0].0[1] == 'a'; }
    LookupStrDict(kvs, "title", 1);
  }

  /** The description entry of a task's `__dict__`. */
  lemma TaskDescription(task: Task)
    ensures Lookup(StrDict(TaskAttrs(task)), PStr("description")) == Some(PStr(task.description))
  {
    var kvs := TaskAttrs(task);
    assert kvs[2].0[0] == 'd';
    forall j | 0 <= j < 2 ensures kvs[j].0 != "description" {
      assert kvs[j].0[0] == 't';
    }
    LookupStrDict(kvs, "description", 2);
  }

  /** The priority entry of a task's `__dict__` is its Priority member. */
  lemma TaskPriority(task: Task)
    ensures Lookup(StrDict(TaskAttrs(task)), PStr("priority")) == Some(PriorityObj(task.priority))
  {
    var kvs := TaskAttrs(task);
    assert kvs[5].0[0] == 'p';
    forall j | 0 <= j < 5 ensures kvs[j].0 != "priority" {
      assert kvs[j].0[0] != 'p';
    }
    LookupStrDict(kvs, "priority", 5);
  }

  /** The deadline entry of a task's `__dict__`. */
  lemma TaskDeadline(task: Task)
    ensures Lookup(StrDict(TaskAttrs(task)), PStr("deadline")) == Some(OptStamp(task.deadline))
  {
    var kvs := TaskAttrs(task);
    assert kvs[9].0[0] == 'd' && kvs[9].0[2] == 'a';
    forall j | 0 <= j < 9 ensures kvs[j].0 != "deadline" {
      assert kvs[j].0[0] != 'd' || kvs[j].0[2] != 'a';
    }
    LookupStrDict(kvs, "deadline", 9);
  }

  /** A task dict with a matching text title, an accepted priority and no deadline is delegated. */
  lemma DelegatesTaskDict(content: Entries, entries: Entries, keywords: seq<string>, assigner: Role,
                          assignee: Role, taskId: string, msgId: string, now: nat, metadata: Entries,
                          title: string, priority: Priority)
    requires GetS(content, "task", PDict([])) == PDict(entries)
    requires GetS(entries, "title", PStr("")) == PStr(title) && Strings.ContainsAny(Strings.Lower(title), keywords)
    requires PriorityByValue(GetS(entries, "priority", PStr("medium"))) == Ok(priority)
    requires Get(entries, PStr("deadline"), PNone) == PNone
    ensures DelegateByTitle(content, keywords, assigner, assignee, taskId, msgId, now, metadata)
            == Ok(Some(CreateTaskAssignment(assigner, assignee,
                         NewTask(taskId, title, Show(GetS(entries, "description", PStr(""))), assignee, assigner,
                                 priority, None, now).(metadata := metadata), now, msgId)))
  {
  }

  /**
   * The task a task assignment carries, enum members and all, is delegated
   * again when its title matches and it has no deadline: the priority
   * member is accepted as it is and the new assignment keeps it.
   */
  lemma DelegatesCreatedAssignment(task: Task, from: Role, to: Role, now: nat, id: string,
                                   keywords: seq<string>, next: Role, taskId: string, msgId: string,
                                   later: nat, metadata: Entries)
    requires task.deadline.None? && Strings.ContainsAny(Strings.Lower(task.title), keywords)
    ensures DelegateByTitle(CreateTaskAssignment(from, to, task, now, id).content, keywords, to, next,
                            taskId, msgId, later, metadata)
            == Ok(Some(CreateTaskAssignment(to, next,
                         NewTask(taskId, task.title, task.description, next, to, task.priority, None, later)
                           .(metadata := metadata), later, msgId)))
  {
    var entries := StrDict(TaskAttrs(task));
    TaskTitle(task);
    TaskDescription(task);
    TaskPriority(task);
    TaskDeadline(task);
    ByValueMembers(to, task.priority);
    DelegatesTaskDict(CreateTaskAssignment(from, to, task, now, id).content, entries, keywords, to, next,
                      taskId, msgId, later, metadata, task.title, task.priority);
  }

  /** `create_status_report`: the recipient defaults to the CEO. */
  function CreateStatusReport(agent: Role, report: Entries, recipient: Option<Role>, now: nat, id: string): (m: Message)
    ensures m.messageType == StatusReport && m.sender == agent && m.content == report
    ensures m.recipient == (if recipient.Some? then recipient.value else CEO)
    ensures m.priority == Medium
  {
    CreateMessage(agent, if recipient.Some? then recipient.value else CEO, StatusReport, report, Medium, now, id)
  }

  /** `create_alert`: the recipient defaults to Operations and the priority is the severity. */
  function CreateAlert(sender: Role, alertType: string, text: string, severity: Priority,
                       recipient: Option<Role>, now: nat, id: string): (m: Message)
    ensures m.messageType == Alert && m.sender == sender && m.priority == severity
    ensures m.recipient == (if recipient.Some? then recipient.value else Operations)
    ensures Lookup(m.content, PStr("alert_type")) == Some(PStr(alertType))
    ensures Lookup(m.content, PStr("message")) == Some(PStr(text))
    ensures Lookup(m.content, PStr("severity")) == Some(PStr(PriorityValue(severity)))
  {
    var c := [(PStr("alert_type"), PStr(alertType)), (PStr("message"), PStr(text)),
              (PStr("severity"), PStr(PriorityValue(severity)))];
    assert |"alert_type"| == 10 && |"message"| == 7 && |"severity"| == 8;
    assert Lookup(c[2..], PStr("severity")) == Some(PStr(PriorityValue(severity)));
    assert Lookup(c[1..], PStr("message")) == Some(PStr(text));
    CreateMessage(sender, if recipient.Some? then recipient.value else Operations, Alert, c, severity, now, id)
  }

  /** `calculate_kpi_completion`. */
  function KpiCompletion(current: real, target: real): (r: real)
    ensures target == 0.0 ==> r == 100.0
    ensures target != 0.0 ==> r <= 100.0 && (r == 100.0 || r == current / target * 100.0)
    ensures target != 0.0 && current / target * 100.0 <= 100.0 ==> r == current / target * 100.0
  {
    if target == 0.0 then 100.0
    else if current / target * 100.0 < 100.0 then current / target * 100.0 else 100.0
  }

  lemma KpiCompletionExamples()
    ensures KpiCompletion(50.0, 100.0) == 50.0
    ensures KpiCompletion(150.0, 100.0) == 100.0
    ensures KpiCompletion(7.0, 0.0) == 100.0
  {
  }
}
