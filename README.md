# SuperMan, modelled in Dafny

SuperMan simulates a company run by ten role agents (CEO, CTO, CFO, CMO, CPO,
HR, R&D, Data Analyst, Customer Support, Operations) that exchange typed
messages. The system exists twice, and both trees are modelled here:

- the Python tree: the message router's routing rules (pure lookups on
  tables of keywords), the workflow priority queue, delegation scoring, the
  circuit breaker of the error handler (the `RetryStrategy` and
  `FallbackStrategy` enums beside it define values only), the workload and
  performance bookkeeping of the base agent, the JSON state snapshot store,
  the utility helpers, and the deterministic helpers of each role agent
  (budget checks, scores, thresholds, alert routing);
- the Go tree: the task record and its status, the tiered task queue, the
  auto-scheduler, the work list, the two timer engines, the template task
  generator, the global and per-agent state stores, the two agent runtimes
  with their bounded execution history and the `extractJSON` /
  `parseLLMTasks` parsers, and the mailbox bus.

Each source file is one Dafny module (`router.dfy` is `Router`,
`go_task.dfy` is `GoTask`, and so on). Code that updates objects in place
(the queues, the circuit breaker, the stores, the timers, the agent runtimes, the
mailbox bus) is a `class` whose methods state their new state; the classes
with a structural invariant keep it as `Valid()`; the pure helpers, the router's rules among them, are
functions with lemmas about them.
Shared pieces live in `Wrappers` (Option/Result), `Py` (a JSON-like value
type with dict and list operations), `Strings`, `Clock` (integer ticks with
a formatted timestamp and its parser), `Base` (the message protocol and the
agent state) and `GoTypes` (the Go data types).

The language model, wall clocks and random or UUID identifiers are not
modelled as computation: an LLM reply is a parameter, the current time is
a tick count passed in, and UUIDs are inputs; the Go task IDs are computed
from the tick (`GoTask.GenerateTaskID`).

`SetStatus` at `ds/task.go:142-145` checks no transition, so
`GoTask.Task.SetStatus` accepts any status.

## Model

| member | source | states |
|---|---|---|
| Router.ExactLookup | src/agents/router.py:71-72 | a dict lookup finds nothing iff no key equals the probe, and a hit is an entry of the table |
| Router.FirstContained | src/agents/router.py:103-105 | the first table entry, in table order, whose key is a substring of the text; none iff no key is |
| Strings.Lower | src/agents/router.py:104 | `str.lower` keeps the length and lower-cases each ASCII capital, leaving every other character alone |
| Router.RouteDataRequest | src/agents/router.py:57-86 | category "financial" gives CFO whatever the request_type; a known category wins; otherwise the request_type table, else DATA_ANALYST |
| Router.GetApprover | src/agents/router.py:88-110 | a non-string request_type raises AttributeError (the `.lower()` call) |
| Router.ApproverRule | src/agents/router.py:93-110 | the first of budget, financial, technology, tech, product, hr, marketing inside the lowercased request_type picks the approver; otherwise budget > 100000 gives CEO, else CFO |
| Router.TopicScanStrings | src/agents/router.py:134-138 | for string topic and type the lazy lowercase-and-scan loop equals the first-key-in-either search |
| Router.FirstEither | src/agents/router.py:134-138 | the role of the first topic key found in the topic or in the type; OPERATIONS when no key is found |
| Router.RouteCollaboration | src/agents/router.py:112-120 | a truthy requires_role hint is returned unchanged |
| Router.CollaborationRule | src/agents/router.py:112-138 | without a hint the first topic key found in the lowercased topic or type decides, else OPERATIONS |
| Router.Route | src/agents/router.py:28-55 | StatusReport goes to CEO; Alert and every other type (ApprovalResponse) to OPERATIONS; DataResponse to content.requester, else the sender |
| Router.RouteTaskAssignment | src/agents/router.py:32-35 | TaskAssignment goes to content.task.assigned_to, else content.assignee, else RD |
| Router.RouteCreatedAssignment | src/agents/router.py:32-35 | a message built by create_task_assignment is routed to the task's assigned_to role |
| Router.RouteCreatedAlertAndReport | src/agents/router.py:37-50 | protocol-built alerts route to OPERATIONS and status reports to CEO whatever recipient they carry |
| Router.NeedsApproval | src/agents/router.py:140-162 | false for every type but ApprovalRequest; otherwise true iff an approval keyword is a substring of the lowercased request_type |
| Router.ShouldAlert | src/agents/router.py:164-190 | true for every Alert, false for types other than StatusReport, and for a StatusReport true iff its status is a string holding an alert keyword |
| Router.ApprovalPath | src/agents/router.py:192-197 | the approval chain is [CFO, CEO] for approval requests and empty for any other type |
| WorkflowQueue.TierConstants | src/workflow/priority_queue.py:16-47 | weights Low 1 < Medium 2 < High 3 < Critical 4, timeouts 300/60/30/5, max_concurrent 8/4/2/1; a heavier tier has a shorter timeout and a smaller cap |
| WorkflowQueue.PrecedesOrder | src/workflow/priority_queue.py:63-66 | `a < b` iff a has the higher weight, or the same tier and an earlier created_at; the order is irreflexive-asymmetric and transitive |
| WorkflowQueue.MinIndex | src/workflow/priority_queue.py:81-87 | the position of an item no queued item precedes, the first such position |
| WorkflowQueue.WithoutId | src/workflow/priority_queue.py:99 | the filtered heap keeps exactly the items whose id differs |
| WorkflowQueue.OfPriority | src/workflow/priority_queue.py:110-112 | the comprehension holds exactly the queued items of that tier |
| WorkflowQueue.AgreeRemoveAt | src/workflow/priority_queue.py:83-86 | with unique ids, deleting the popped item's id keeps heap and index in agreement |
| WorkflowQueue.AgreeWithoutId | src/workflow/priority_queue.py:97-99 | with unique ids, dropping an id from both heap and index keeps them in agreement |
| WorkflowQueue.PriorityQueue.constructor | src/workflow/priority_queue.py:72-74 | a new queue has an empty heap and an empty index |
| WorkflowQueue.PriorityQueue.Push | src/workflow/priority_queue.py:76-79 | the item is appended to the heap and indexed by id; consistency is kept when the id is new, and a duplicate id keeps both heap items but one index entry |
| WorkflowQueue.PriorityQueue.Len | src/workflow/priority_queue.py:104-105 | the length is the heap size |
| WorkflowQueue.PriorityQueue.IsEmpty | src/workflow/priority_queue.py:107-108 | empty iff the length is 0 |
| WorkflowQueue.PriorityQueue.Peek | src/workflow/priority_queue.py:89-93 | None iff the heap is empty, else a queued item that no other queued item precedes; nothing changes |
| WorkflowQueue.PriorityQueue.Pop | src/workflow/priority_queue.py:81-87 | None on an empty queue; otherwise the item peek returns, removed from heap and index (size down by one); with unique ids it never raises KeyError and keeps consistency |
| WorkflowQueue.PriorityQueue.Remove | src/workflow/priority_queue.py:95-102 | an absent id returns None and changes nothing; otherwise the indexed item is returned and the id leaves both heap and index |
| WorkflowQueue.PriorityQueue.GetByPriority | src/workflow/priority_queue.py:110-112 | exactly the queued items of the given tier |
| WorkflowQueue.PopOrderExample | src/workflow/priority_queue.py:63-87 | pushing Low, Critical, Medium pops Critical, then Medium, then Low |
| Delegate.PriorityWeight | src/workflow/delegate.py:9-14 | critical 1.5, high 1.2, medium 1.0, low 0.8, any other value 1.0; always within [0.8, 1.5] |
| Delegate.EffectiveEstimate | src/workflow/delegate.py:57 | a missing or zero estimate counts as 0.1, any other estimate as itself; non-negative for non-negative input |
| Delegate.Covered | src/workflow/delegate.py:29-36 | the covered set is within the requirement set, and as large as it iff every required capability is present |
| Delegate.CapabilityMatch | src/workflow/delegate.py:19-36 | lies in [0, 1]; 1.0 when nothing is required; 1.0 exactly when every required capability is present |
| Delegate.CapabilityExample | src/workflow/delegate.py:29-36 | {python, api, ml} against {python, api} scores 2/3 |
| Delegate.WorkloadBalance | src/workflow/delegate.py:39-62 | never negative; zero iff workload + estimate × weight reaches 1; at most 1 for non-negative inputs |
| Delegate.WorkloadExample | src/workflow/delegate.py:54-62 | workload 0.4, estimate 0.3 at High scores 0.24 |
| Delegate.FinalScore | src/workflow/delegate.py:112-123 | 0.5·capability + 0.3·workload + 0.2·1.0 lies in [0.2, 1.0] for non-negative workload and estimate |
| Delegate.DelegateTask | src/workflow/delegate.py:77-127 | ValueError iff the agent map is empty; otherwise an agent whose final score is maximal and strictly above every earlier agent's (ties go to the first in map order) |
| ErrorHandling.CircuitBreaker.constructor | src/workflow/error_handling.py:17-30 | a new breaker is CLOSED with failure_count 0, no last failure and half_open_calls 0 |
| ErrorHandling.CircuitBreaker.AllowRequest | src/workflow/error_handling.py:32-45 | CLOSED allows; OPEN refuses until now − last_failure_time ≥ recovery_timeout (a truthy stamp), then moves to HALF_OPEN with half_open_calls 0 and allows; HALF_OPEN allows iff half_open_calls < half_open_max_calls, which under the invariant is half_open_max_calls > 0; the failure fields never change |
| ErrorHandling.CircuitBreaker.RecordSuccess | src/workflow/error_handling.py:47-51 | failure_count becomes 0, HALF_OPEN closes, no other state changes and the breaker never opens |
| ErrorHandling.CircuitBreaker.RecordFailure | src/workflow/error_handling.py:53-61 | the count rises by one and the failure is stamped; HALF_OPEN reopens; otherwise OPEN iff the count reaches the threshold; the invariant "OPEN implies a stamped failure" is kept |
| ErrorHandling.LifecycleExample | src/workflow/error_handling.py:32-61 | threshold 3, timeout 100: three failures open the breaker and refuse the next request; after 100 ticks a request is allowed in HALF_OPEN; a success closes it with count 0, a failure reopens it |
| Base.RoleFromValue | src/agents/base.py:9-21 | the role whose value is the text, and None exactly when no role has that value |
| Base.TypeFromValue | src/agents/base.py:24-34 | the message type whose value is the text, and None exactly when no type has that value |
| Base.PriorityFromValue | src/agents/base.py:37-43 | the priority whose value is the text, and None exactly when no priority has that value |
| Base.RoleValueRoundTrip | src/agents/base.py:9-21 | looking a role up by its own value gives the role back |
| Base.RoleRoundTrip | src/agents/base.py:9-21 | `AgentRole(x)` on a member or on its value gives the member back |
| Base.TypeValueRoundTrip | src/agents/base.py:24-34 | looking a message type up by its value gives it back |
| Base.TypeRoundTrip | src/agents/base.py:24-34 | `MessageType(x)` on a member or on its value gives the member back |
| Base.PriorityRoundTrip | src/agents/base.py:37-43 | `Priority(x)` on a member or on its value gives the member back |
| Base.NewTask | src/agents/base.py:98-114 | a new task is pending with empty dependencies, deliverables and metadata, created and updated at the given tick |
| Base.RoleByValue | src/agents/base.py:9-21 | `AgentRole(v)` succeeds exactly on a role member or a role's value string, giving that role, and raises ValueError otherwise |
| Base.PriorityByValue | src/agents/base.py:37-43 | `Priority(v)` succeeds exactly on a priority member or a priority's value string, giving that priority, and raises ValueError otherwise |
| Base.ByValueMembers | src/agents/base.py:9-43 | both enum calls give back a member passed to them, and the member named by a value string |
| Base.DeadlineOf | src/agents/cpo.py:146-148 | a falsy deadline gives None; a string is parsed, unparsable text raising ValueError; any other truthy value raises TypeError |
| Base.FailedCount | src/agents/hr.py:602-604 | the number of failed completed tasks never exceeds the number of completed tasks |
| Base.AgentOf | src/workflow/delegate.py:54 | `agents[role]`: the entry for the role, None exactly when the role is absent |
| Base.Clamp01 | src/agents/base.py:221 | `max(0.0, min(1.0, x))` lies in [0, 1], is x inside that range, 0 below it and 1 above it |
| Base.Hierarchy | src/agents/base.py:249-267 | CEO 10; CTO, CPO, CMO, CFO 9; HR 8; Operations 7; DataAnalyst 6; RD 5; CustomerSupport 4; rank 10 iff CEO |
| Base.HierarchyOrder | src/agents/base.py:255-266 | CEO outranks every other role, and CEO > CTO > HR > Operations |
| Base.FirstTaskIndex | src/agents/base.py:239-240 | the index of the first current task with the id; None iff no task has it |
| Base.BaseAgent.constructor | src/agents/base.py:148-156 | a new agent has the role and capabilities, empty lists, empty metrics and workload 0.0 |
| Base.BaseAgent.CanHandleTask | src/agents/base.py:194-201 | true iff workload < 0.8 and the task is assigned to this role |
| Base.BaseAgent.HasCapabilities | src/agents/base.py:203-214 | true iff every required capability is among the agent's (vacuously for none) |
| Base.BaseAgent.RoleHierarchy | src/agents/base.py:249-267 | the agent's rank lies in [4, 10] |
| Base.BaseAgent.UpdateWorkload | src/agents/base.py:216-222 | workload becomes the old workload plus delta clamped into [0, 1], last_active is refreshed, nothing else changes |
| Base.BaseAgent.AddTask | src/agents/base.py:224-230 | the task is appended to current_tasks and workload rises by 0.1, clamped; nothing else changes |
| Base.BaseAgent.CompleteTask | src/agents/base.py:232-247 | None and no change iff no current task has the id; otherwise the first such task is marked completed, moved to completed_tasks and returned, and workload drops by 0.1, clamped |
| Base.CreateMessage | src/agents/base.py:273-297 | the message carries exactly the given sender, recipient, type, content and priority |
| Base.CreateTaskAssignment | src/agents/base.py:299-317 | a TaskAssignment from assigner to assignee at the task's priority whose content holds the task's fields under "task" |
| Base.AssignmentMetadata | src/agents/base.py:315 | the task carried by a task assignment keeps the task's metadata |
| Base.DelegateByTitle | src/agents/cpo.py:132-155 | a non-dict task or non-string title raises; a title without any of the keywords gives None; otherwise a TaskAssignment from the handler to the target at the task's priority (a member or its value) carrying the given metadata, ValueError for an unknown priority |
| Base.DelegatesCreatedAssignment | src/agents/base.py:299-317 | the content `create_task_assignment` ships for a task without deadline whose lower-cased title carries a keyword is delegated on, with the same title, description and priority |
| Base.CreateStatusReport | src/agents/base.py:319-338 | a StatusReport carrying the report, sent to the given recipient or else the CEO, at medium priority |
| Base.CreateAlert | src/agents/base.py:340-368 | an Alert at priority = severity, sent to the given recipient or else OPERATIONS, whose content holds alert_type, message and severity.value |
| Base.KpiCompletion | src/agents/base.py:382-392 | target 0 gives 100; otherwise at most 100, and current/target·100 whenever that is at most 100 |
| Base.KpiCompletionExamples | src/agents/base.py:382-392 | 50/100 gives 50, 150/100 gives 100, and any value against target 0 gives 100 |
| StateManager.DefaultState | src/agents/state_manager.py:45-75 | the default state has empty agents, tasks, messages, KPIs, feedback and health, with the clock at the given tick |
| StateManager.TaskList | src/agents/state_manager.py:151-154 | the replaced task list keeps dict items and converts the others, one for one; it fails only when the value is not iterable |
| StateManager.ToFloat | src/agents/state_manager.py:171 | `float(x)` gives the number for numeric input and for decimal text (sign, digits, point, exponent), ValueError for other text and TypeError for anything else |
| Py.FloatTextWhole | src/agents/state_manager.py:171 | the decimal text of a whole number, with or without a sign, reads as that number |
| Py.FloatTextPoint | src/agents/state_manager.py:171 | text with a decimal point reads as its value, the whole part may be empty |
| Py.FloatTextExponent | src/agents/state_manager.py:171 | an exponent in either case scales by that power of ten, negative exponents included |
| Py.FloatTextRefused | src/agents/state_manager.py:171 | words, a lone point and two points are no number |
| StateManager.ToFloatText | src/agents/state_manager.py:171 | `float("0.5")` is 0.5 and `float("high")` raises ValueError |
| StateManager.ReplaceList | src/agents/state_manager.py:150-160 | a task-list update raises exactly when the field is present but not iterable |
| StateManager.MergeMetrics | src/agents/state_manager.py:162-165 | merging metrics succeeds exactly when the field is absent or both the stored and the given metrics are dicts |
| StateManager.SetWorkload | src/agents/state_manager.py:170-171 | the workload step raises exactly when `float` refuses the given workload |
| StateManager.ReplaceListKeeps | src/agents/state_manager.py:150-160 | the task-list step changes no key but its own |
| StateManager.ReplaceListWrites | src/agents/state_manager.py:150-160 | a given task list is stored converted under its key |
| StateManager.MergeMetricsKeeps | src/agents/state_manager.py:162-165 | the metrics step changes no key but performance_metrics |
| StateManager.MergeMetricsWrites | src/agents/state_manager.py:162-165 | the stored metrics become the key-wise merge of stored and given |
| StateManager.CapabilitiesKeeps | src/agents/state_manager.py:167-168 | the capabilities step changes no key but capabilities |
| StateManager.WorkloadKeeps | src/agents/state_manager.py:170-171 | the workload step changes no key but workload |
| StateManager.WorkloadWrites | src/agents/state_manager.py:170-171 | a given workload is stored as `float(workload)` |
| StateManager.AgentUpdateSucceeds | src/agents/state_manager.py:148-173 | a well-typed update raises nothing and ends with last_active stamped on top of the field steps |
| StateManager.AgentUpdateFails | src/agents/state_manager.py:148-173 | an ill-typed update (non-iterable list, unmergeable metrics, a workload `float` refuses) raises |
| StateManager.AgentUpdateRaises | src/agents/state_manager.py:148-173 | an update raises exactly when it is ill-typed |
| StateManager.AgentUpdateKeeps | src/agents/state_manager.py:148-173 | every field the update does not name, other than last_active, keeps its value |
| StateManager.AgentUpdateTaskList | src/agents/state_manager.py:150-160 | a named task list is replaced by the given items, dicts kept and others converted |
| StateManager.AgentUpdateMetrics | src/agents/state_manager.py:162-165 | named metrics are merged key-wise into the stored ones |
| StateManager.AgentUpdateCapabilities | src/agents/state_manager.py:167-168 | given capabilities replace the stored list as they are |
| StateManager.AgentUpdateWorkload | src/agents/state_manager.py:170-171 | a given workload is stored coerced to float |
| StateManager.AgentUpdateStamp | src/agents/state_manager.py:173 | every successful update refreshes last_active |
| StateManager.ConvertValues | src/agents/state_manager.py:255-259 | as written, each agent and task value is converted and its key kept |
| StateManager.FixedEntries | src/agents/state_manager.py:255-259 | corrected writer: keys and values are converted with enum members written as their value |
| StateManager.ConvertItems | src/agents/state_manager.py:261-262 | as written, each message is converted, in order |
| StateManager.FixedItems | src/agents/state_manager.py:261-262 | corrected writer: each message is converted with enum members as values, in order |
| StateManager.JsonValueDumpable | src/agents/state_manager.py:121 | `json.dump` accepts every JSON value |
| StateManager.StampRoundTrip | src/agents/state_manager.py:247 | a written timestamp parses back to the same tick |
| StateManager.DecodeMessage | src/agents/state_manager.py:302-325 | a non-dict message entry raises AttributeError (outside the caught exceptions); a dict entry never raises |
| StateManager.Deserialized | src/agents/state_manager.py:266-327 | a loaded state holds only the nine keys the reader builds |
| StateManager.DocumentFields | src/agents/state_manager.py:243-253 | each of the nine document keys reads back the value the writer put there |
| StateManager.FixedEnums | src/agents/state_manager.py:255-262 | the corrected writer writes roles, message types and priorities as their value strings |
| StateManager.ConvertedMessageFields | src/agents/utils.py:120-121 | as written, a message's enum members are written as their attribute dicts, not their values |
| StateManager.ConvertedMessageSkipped | src/agents/state_manager.py:302-325 | as written, a message produced by `_serialize_state` is always skipped on reload (its sender is no role value) |
| StateManager.ConvertedMessagesSkipped | src/agents/state_manager.py:301-325 | as written, the reader skips every message of a written list |
| StateManager.ReloadDropsMessages | src/agents/state_manager.py:234-325 | as written, a saved company's messages never come back on load |
| StateManager.FixedMessageShape | src/agents/state_manager.py:261-262 | the corrected writer turns a message into the dict of its seven fields |
| StateManager.FixedMessageRoundTrip | src/agents/state_manager.py:302-325 | corrected: a written message reads back as the same message |
| StateManager.FixedMessagesRead | src/agents/state_manager.py:301-325 | corrected: all written messages read back, in order |
| StateManager.FixedAgentKeys | src/agents/state_manager.py:255-256 | distinct roles are written under distinct keys |
| StateManager.DecodeAgentsFresh | src/agents/state_manager.py:289-295 | keys naming distinct roles are all kept, in order |
| StateManager.FixedNamesRoles | src/agents/state_manager.py:255-256 | the corrected writer files each agent under a key that names its role |
| StateManager.FixedTaskKeys | src/agents/state_manager.py:258-259 | task ids are kept as keys, distinct and strings |
| StateManager.FixedAgentsReload | src/agents/state_manager.py:289-295 | corrected: the agents dict reads back as it was |
| StateManager.FixedTasksReload | src/agents/state_manager.py:297-299 | the tasks dict reads back as written |
| StateManager.FixedReload | src/agents/state_manager.py:234-327 | corrected round trip: agents, messages, time and the dict fields read back as saved, tasks as their converted dicts |
| StateManager.ReadDocument | src/agents/state_manager.py:266-327 | reading a written document gives the stored time, the decoded agents, tasks and messages, and the other fields as written |
| StateManager.DocumentJson | src/agents/state_manager.py:243-264 | a document whose parts are JSON is JSON |
| StateManager.FixedAgentsJson | src/agents/state_manager.py:255-256 | the corrected agents dict is JSON |
| StateManager.FixedTasksJson | src/agents/state_manager.py:258-259 | the corrected tasks dict is JSON when task values have string keys |
| StateManager.FixedMessagesJson | src/agents/state_manager.py:261-262 | the corrected message list is JSON |
| StateManager.FixedDocumentJson | src/agents/state_manager.py:109-121 | corrected: with JSON-valued fields the written document is JSON and `json.dump` accepts it |
| StateManager.BadKeyRefused | src/agents/state_manager.py:121 | `json.dump` refuses a dict with a non-JSON key, and a document holding it as its agents |
| StateManager.SaveRejectsAgents | src/agents/state_manager.py:109-121 | as written, saving a company with an agent raises TypeError, its AgentRole key being no JSON key |
| StateManager.ReloadKeepsKpis | src/agents/state_manager.py:234-327 | as written, a saved and reloaded company keeps its KPIs (e.g. revenue 100) and loses its messages |
| StateManager.DecodeAgentsLookup | src/agents/state_manager.py:289-295 | the reader keeps an agent whose key is a role value, skips other keys, and a later duplicate wins |
| StateManager.DecodeAgentsRoleKeyed | src/agents/state_manager.py:289-295 | every kept agent is filed under its role |
| StateManager.MessageSkipped | src/agents/state_manager.py:302-325 | a message dict is skipped exactly when a sender, recipient, type or priority tag names no member or its timestamp does not parse |
| StateManager.MessagePriority | src/agents/state_manager.py:307 | a read message carries the priority its tag names |
| StateManager.MissingPriorityIsMedium | src/agents/state_manager.py:307 | a message without a priority tag reads with priority medium |
| StateManager.StateManager.constructor | src/agents/state_manager.py:35-43 | a new manager holds the default state |
| StateManager.StateManager.UpdateAgentState | src/agents/state_manager.py:123-173 | a non-dict update changes nothing; an unseen role first gets an entry with empty lists, empty metrics and workload 0.0; then the field rules apply to that entry and no other entry changes |
| StateManager.StateManager.AddTask | src/agents/state_manager.py:184-191 | the task is stored under its id, overwriting an earlier one; nothing else changes |
| StateManager.StateManager.AddMessage | src/agents/state_manager.py:193-200 | the message is appended; nothing else changes |
| StateManager.StateManager.AddUserFeedback | src/agents/state_manager.py:202-211 | the stamped feedback is appended; a non-list feedback field raises and changes nothing |
| StateManager.StateManager.WriteDict | src/agents/state_manager.py:255-259 | the writer's dict loop keeps each key as it is and converts its value, later keys overwriting |
| StateManager.StateManager.WriteList | src/agents/state_manager.py:261-262 | the writer's message loop gives the converted messages in order |
| StateManager.StateManager.SerializeState | src/agents/state_manager.py:234-264 | the serialised document is the as-written writer's document, `AgentRole` keys included |
| StateManager.StateManager.SaveState | src/agents/state_manager.py:109-121 | the written document, or TypeError when `json.dump` refuses it, which it does for every company holding an agent |
| StateManager.StateManager.DeserializeState | src/agents/state_manager.py:266-327 | the three reading loops give exactly the specified reader's result |
| StateManager.StateManager.LoadState | src/agents/state_manager.py:81-107 | FileNotFoundError and no change without a file; otherwise the read document becomes the state, or the state is kept on an error |
| StateManager.StateManager.UpdateKpis | src/agents/state_manager.py:213-220 | the given KPIs are merged key-wise into the KPI dict; nothing else changes |
| StateManager.StateManager.UpdateSystemHealth | src/agents/state_manager.py:222-232 | the health data are merged in and last_updated is stamped |
| Utils.SafeGet | src/agents/utils.py:31-46 | the default for non-dict data, an absent key or a stored None; the stored value otherwise |
| Utils.AllFields | src/agents/utils.py:62-65 | true iff every field is present with a non-None value (an unhashable field raises TypeError when reached); false iff some field is the first missing one |
| Utils.ValidateDictFields | src/agents/utils.py:49-65 | false for non-dict data or a non-list field list; otherwise true iff every field is present and non-None; an empty field list accepts any dict |
| Utils.ConvertSerializable | src/agents/utils.py:107-129 | the converted value is always serialisable: lists and tuples elementwise, dicts valuewise, primitives kept, everything else turned into text |
| Utils.ConvertIdentity | src/agents/utils.py:124-127 | str/int/float/bool/None and lists and dicts of them are left unchanged |
| Utils.ConvertIdempotent | src/agents/utils.py:107-129 | converting twice is converting once |
| Utils.LastValue | src/agents/utils.py:132-145 | the value of the key in the last dict argument holding it; None iff no dict argument holds it |
| Utils.MergeLookup | src/agents/utils.py:132-145 | in the merged dict every key has the value of the last dict argument holding it; non-dict arguments are ignored |
| Utils.Chunks | src/agents/utils.py:161 | the chunks concatenate back to the input, each has 1..size items and all but the last have exactly size |
| Utils.ChunkList | src/agents/utils.py:148-161 | ValueError iff size ≤ 0; otherwise the chunks concatenate to the input, every chunk but the last has exactly chunk_size items and none is empty |
| Utils.JsonValueSerializable | src/agents/utils.py:107-129 | a JSON value is serialisable |
| Utils.ConvertFixedSerializable | src/agents/utils.py:107-129 | the corrected conversion (enum members written as their value) still yields a serialisable value |
| Utils.ConvertFixedIdentity | src/agents/utils.py:124-127 | the corrected conversion leaves serialisable values unchanged |
| Utils.ConvertFixedJson | src/agents/utils.py:107-129 | with string keys throughout, the corrected conversion yields a JSON value that json.dump accepts |
| Operations.BreakerStep | src/agents/operations.py:602-655 | an open breaker moves to half-open (failure time cleared) exactly when `timeout` seconds have passed since it opened and otherwise stays open; a non-open breaker opens, stamped now, exactly when its failure count reached the threshold, else the report gives its state and count |
| Operations.BreakerNeverCloses | src/agents/operations.py:602-655 | no call stores a closed breaker or changes a breaker's failure count or timeout |
| Operations.UnknownCircuit | src/agents/operations.py:605-615 | an unknown circuit starts closed with no failures, so it is stored (and opened) exactly when the threshold is at most 0 |
| Operations.ProcessAlert | src/agents/operations.py:680-714 | a critical alert becomes a critical alert to the CEO typed "critical_<type>", a high one a high alert to the CTO, any other severity a status report to the CTO; the sender is always operations |
| Operations.AgentAnomalies | src/agents/operations.py:520-547 | every anomaly recorded for an agent names that agent |
| Operations.FailureAnomaly | src/agents/operations.py:549-563 | an agent yields a high_failure_rate anomaly exactly when a tenth of its completed tasks exceeds 5 |
| Operations.AgentAnomaliesIff | src/agents/operations.py:520-547 | an agent raises a high_workload (workload above 0.95) or inactive_agent_with_load (idle over 300 s with workload above 0.5) anomaly exactly when the condition holds and it is not the operations agent |
| Operations.WorkloadScanIff | src/agents/operations.py:520-547 | the first loop reports an anomaly of a kind for a role exactly when some entry for that role meets the kind's condition |
| Operations.FailureScanCount | src/agents/operations.py:549-563 | the second loop reports one high_failure_rate anomaly per agent with more than 50 completed tasks, and nothing else |
| Operations.AgentBottlenecks | src/agents/operations.py:716-748 | the operations agent is never reported; another agent gets a queue bottleneck for more than 20 current tasks and a workload bottleneck above 0.9, high severity above 0.95 |
| Operations.BottlenecksSkipOperations | src/agents/operations.py:722-724 | no bottleneck in the scan names the operations agent |
| Operations.CompletionRate | src/agents/operations.py:454-458 | the completion rate lies in [0, 1] and is 1.0 for an agent with no current tasks |
| Operations.HealthScore | src/agents/operations.py:446-461 | the agent health score lies in [15, 100]; it is 100 exactly for an active agent with workload at most 0.8 and rate at least 0.7, and 15 exactly when every deduction applies |
| Operations.AgentHealth | src/agents/operations.py:440-462 | the score computed from an agent's state lies in [15, 100] |
| Operations.HealthScores | src/agents/operations.py:440-462 | every per-agent score lies in [15, 100] |
| Operations.OverallHealthBounds | src/agents/operations.py:473 | the overall health is 0 for no agents and otherwise the mean of the scores, within [15, 100] |
| Operations.MeanBounds | src/agents/operations.py:473 | a mean of values bounded by lo and hi is bounded by lo and hi |
| Operations.QueuePressure | src/agents/operations.py:475-478 | queue pressure is low below 10 tasks, medium from 10 to 49, high from 50 |
| Operations.OperationsAgent.constructor | src/agents/operations.py:23-59 | a new agent has no breakers, no anomalies and an empty task queue |
| Operations.OperationsAgent.ImplementCircuitBreaker | src/agents/operations.py:602-655 | the circuit's breaker (a closed default if unknown) is stepped as BreakerStep says and stored only on a transition; nothing else changes |
| Operations.OperationsAgent.BreakerOpen | src/agents/operations.py:143-144 | an alert type names an open circuit exactly when it is a string key whose breaker is open |
| Operations.OperationsAgent.HandleAlert | src/agents/operations.py:129-152 | the registry entry for the alert type is overwritten with status "new"; an open breaker answers with a circuit_breaker_active alert, otherwise the alert is processed; an unhashable type is a TypeError |
| Operations.OperationsAgent.DetectAnomalies | src/agents/operations.py:514-565 | the result is the workload scan followed by the failure scan |
| Operations.OperationsAgent.DetectBottlenecks | src/agents/operations.py:716-748 | the result is the bottleneck scan over the agents in order |
| Operations.CheckAgent | src/agents/operations.py:520-547 | one agent's step of the workload loop adds exactly that agent's workload and inactivity anomalies |
| Operations.ScanWorkload | src/agents/operations.py:520-547 | the first loop returns the workload scan of all agents, in order |
| Operations.ScanFailures | src/agents/operations.py:550-563 | the second loop returns the failure scan of all agents, in order |
| Operations.CheckBottlenecks | src/agents/operations.py:720-746 | one agent's step of the bottleneck loop adds exactly that agent's bottlenecks |
| Operations.OperationsAgent.OpenCircuits | src/agents/operations.py:496-510 | the result lists exactly the circuits whose breaker is open |
| Operations.OperationsAgent.MonitorHealth | src/agents/operations.py:424-512 | per-agent scores, their mean, the queue pressure band, "normal" exactly when no anomaly is registered, and the open-breaker count |
| CustomerSupport.ClassifyIssue | src/agents/customer_support.py:245-259 | "urgent" exactly when an urgent keyword occurs in the lower-cased question, "complex" exactly when no urgent but a complex keyword occurs, "routine" otherwise (the knowledge list changes nothing) |
| CustomerSupport.ClassifyExample | src/agents/customer_support.py:245-253 | the question is lower-cased before matching, so "DOWN" is urgent |
| CustomerSupport.IsSystemicIssue | src/agents/customer_support.py:662-668 | true exactly for critical or high severity or a systemic keyword in the lower-cased message; a message that is not text is an AttributeError |
| CustomerSupport.FirstKbMatch | src/agents/customer_support.py:266-268 | the index of the first knowledge-base entry whose query and the question contain one another ignoring case, None exactly when no entry matches |
| CustomerSupport.QueryKnowledgeBase | src/agents/customer_support.py:261-271 | an empty base gives the fixed prompt; otherwise the first matching entry's answer, or the not-found reply naming the question |
| CustomerSupport.FoundIn | src/agents/customer_support.py:643-646 | the found keywords are exactly the issue keywords contained in the text |
| CustomerSupport.FirstIssue | src/agents/customer_support.py:650 | the index of the first common issue with the keyword, None exactly when there is none |
| CustomerSupport.BumpIssueUnique | src/agents/customer_support.py:649-660 | a bump keeps issue keywords unique and appends an entry exactly for an unseen keyword |
| CustomerSupport.BumpIssueCount | src/agents/customer_support.py:649-660 | a bump raises the bumped keyword's count by one and leaves every other count |
| CustomerSupport.RecordIssuesCount | src/agents/customer_support.py:648-660 | over distinct found keywords, each found keyword counts once more, other counts stay, keywords stay unique |
| CustomerSupport.FoundInDistinct | src/agents/customer_support.py:643-646 | the found keyword list has no repeats |
| CustomerSupport.AnalyzeCounts | src/agents/customer_support.py:639-660 | analysing feedback text raises the count of exactly the keywords it contains by one and keeps keywords unique |
| CustomerSupport.HotCount | src/agents/customer_support.py:681 | at most as many hot issues as issues |
| CustomerSupport.IssueTrend | src/agents/customer_support.py:677-687 | "no_data" exactly for no issues; otherwise increasing for more than 3 issues seen more than twice, decreasing for fewer than 2, stable for 2 or 3 |
| CustomerSupport.IncreasingNeedsFour | src/agents/customer_support.py:677-687 | an increasing trend needs at least four recorded issues |
| CustomerSupport.KeepPositive | src/agents/customer_support.py:295 | the filter keeps exactly the entries with a positive score; a non-numeric score cannot be compared (TypeError) |
| CustomerSupport.ScoreTotal | src/agents/customer_support.py:622 | the total exists exactly when every score is a number |
| CustomerSupport.ScoreTotalNonNegative | src/agents/customer_support.py:295 | after the positive filter the total exists and is never negative |
| CustomerSupport.AverageSatisfaction | src/agents/customer_support.py:619-623 | 0.0 for no scores, otherwise the mean score rounded to two places; a non-numeric score is a TypeError |
| CustomerSupport.AverageOfPositives | src/agents/customer_support.py:619-623 | over positive scores the average exists, is never negative and is within 0.005 of the exact mean |
| CustomerSupport.EscalationTicket | src/agents/customer_support.py:365-374 | the ticket is pending, escalated to the target, complex exactly for the CPO (urgent otherwise), high priority exactly for the CEO |
| CustomerSupport.Head50 | src/agents/customer_support.py:382 | a text is cut to its first 50 characters; only sequences can be sliced |
| CustomerSupport.CustomerSupportAgent.constructor | src/agents/customer_support.py:15-45 | a new agent has an empty knowledge base, no tickets, no sentiment, no common issues and no scores |
| CustomerSupport.CustomerSupportAgent.RecordFound | src/agents/customer_support.py:648-660 | the loop over the found keywords leaves the issue list the pure recording describes |
| CustomerSupport.CustomerSupportAgent.AnalyzeCommonIssues | src/agents/customer_support.py:639-660 | nothing for falsy feedback, an AttributeError for non-text feedback, otherwise every issue keyword found is recorded; tickets and knowledge base unchanged |
| CustomerSupport.CustomerSupportAgent.CollectFeedback | src/agents/customer_support.py:273-297 | an unhashable user id changes nothing and raises TypeError; otherwise the user's sentiment entry is overwritten and the score appended; a non-numeric score raises TypeError after the append; a positive score keeps only positive entries; then falsy feedback leaves the common issues as they were, non-text feedback raises AttributeError, and text records each issue keyword it contains |
| CustomerSupport.CustomerSupportAgent.EscalateIssue | src/agents/customer_support.py:364-394 | exactly one ticket is appended; a known target gets the task assignment carrying the ticket, an unknown one nothing; an unsliceable question fails |
| CustomerSupport.EscalationMessage | src/agents/customer_support.py:378-393 | the task assignment goes from customer support to the target, high priority exactly for the CEO |
| Hr.PerformanceTier | src/agents/hr.py:621-628 | excellent from 0.9, good from 0.75, needs_improvement from 0.5, critical below, each band both ways |
| Hr.TierMonotone | src/agents/hr.py:621-628 | a higher score never lands in a lower tier |
| Hr.ErrorRate | src/agents/hr.py:601-606 | the failed share of the completed tasks over max(1, total), within [0, 1] and 0 with no completed tasks |
| Hr.ResponseTimeScore | src/agents/hr.py:608-619 | 0.8 with no completed tasks, otherwise 1.0 for a mean duration under an hour, 0.8 under a day, 0.5 beyond |
| Hr.Available | src/agents/hr.py:561-566 | no more roles than agent entries |
| Hr.AvailableIff | src/agents/hr.py:561-566 | a role is available exactly when one of its entries has workload below 0.8 |
| Hr.GetAvailableAgents | src/agents/hr.py:561-566 | the loop returns exactly the available roles, in dict order |
| Hr.CapabilityMatches | src/agents/hr.py:580-582 | no more matches than capabilities |
| Hr.AgentScore | src/agents/hr.py:573-589 | a known agent scores at least 0.5 and at most 0.85 plus 0.1 per capability |
| Hr.ScoreFor | src/agents/hr.py:578-589 | a role the agents dict knows scores at least 0.5 |
| Hr.BestScanSpec | src/agents/hr.py:568-591 | the best match is a known candidate with the highest score and no earlier candidate reaches that score; there is none only when no candidate is known |
| Hr.ScoreAgent | src/agents/hr.py:580-588 | the capability loop computes the agent's score |
| Hr.FindBestAgent | src/agents/hr.py:568-591 | the loop returns the best match of the scan, passing over unknown candidates |
| Hr.AvailableKnown | src/agents/hr.py:561-566 | every available role is known to the agents dict |
| Hr.BestOfAvailable | src/agents/hr.py:568-591 | with at least one available agent some agent is always chosen |
| Hr.TaskWords | src/agents/hr.py:575-577 | the task words exist exactly when title and description are text |
| Hr.AssignTasks | src/agents/hr.py:343-376 | a task that cannot be built fails with its error; no available agent defers it; otherwise the best available agent gets it with confidence 0.85, so pending_review never happens |
| Hr.RiskLevel | src/agents/hr.py:946-957 | high for more than 10 targets, medium for 6 to 10, low for at most 5 |
| Hr.ReconfigurationApproved | src/agents/hr.py:838-851 | a reconfiguration is approved exactly when its risk is not high; a plan that is not a dict or targets without a length fail |
| Hr.AllocationBudget | src/agents/hr.py:870-885 | the plan's budget, after the checks the assessment makes on the plan, budget and projected benefits |
| Hr.AlignmentScore | src/agents/hr.py:984-994 | 0.8 exactly for a positive budget with strategic goals set, otherwise 0.5 |
| Hr.ResourceApprovedAsWritten | src/agents/hr.py:870-885 | the decision as written exists exactly when the assessment succeeds |
| Hr.ResourceNeverApproved | src/agents/hr.py:885 | comparing the 0.5 or 0.8 alignment score with 70 never approves a request |
| Hr.ResourceApproved | src/agents/hr.py:885 | the decision with the threshold on the score's own scale exists exactly when the assessment succeeds |
| Hr.ResourceApprovedIff | src/agents/hr.py:984-994 | a well-formed request is then approved exactly when its budget is positive and the company has strategic goals |
| Cpo.MoscowTag | src/agents/cpo.py:718-727 | must/high map to the must bucket, should/medium to should, could/low to could, anything else to won't, each both ways |
| Cpo.Rank | src/agents/cpo.py:730-734 | the sort key lies in 1..5 |
| Cpo.OfRank | src/agents/cpo.py:730-734 | the features of one rank keep their order and all carry that rank |
| Cpo.SortByRankStable | src/agents/cpo.py:730-734 | the sort is stable: the features of each rank keep their original order |
| Cpo.SortByRankSorted | src/agents/cpo.py:730-734 | the sorted features are in ascending rank order |
| Cpo.SortByRankPermutation | src/agents/cpo.py:730-734 | the sorted features are a permutation of the tagged ones |
| Cpo.Tag | src/agents/cpo.py:717-728 | a dict feature gets its bucket written in; a non-dict feature has no `get` (AttributeError) |
| Cpo.TagAll | src/agents/cpo.py:716-728 | the tagging loop keeps one tagged feature per input feature |
| Cpo.TagRank | src/agents/cpo.py:718-734 | a tagged feature sorts under the bucket of its lower-cased priority |
| Cpo.PrioritizeFeatures | src/agents/cpo.py:712-737 | with "moscow" every feature is tagged and the list stably sorted by bucket, the first failing feature failing the call; any other method returns the list unchanged |
| Cpo.TagAllPrefixError | src/agents/cpo.py:716-728 | a failure in a prefix is the failure of the whole list |
| Cpo.KeepLast | src/agents/cpo.py:657-658 | the kept feedback is the newest min(100, n) entries |
| Cpo.CountSentiment | src/agents/cpo.py:754-762 | a sentiment count never exceeds the number of entries |
| Cpo.CountsBounded | src/agents/cpo.py:754-762 | the three sentiment counts together never exceed the total |
| Cpo.Nps | src/agents/cpo.py:774-778 | 0 with no positive or negative entries, otherwise within [-100, 100] and positive exactly when positives outnumber negatives |
| Cpo.RatioBounds | src/agents/cpo.py:778 | a difference bounded by its total gives a ratio in [-1, 1] with the difference's sign |
| Cpo.SummarizeSentiment | src/agents/cpo.py:750-772 | no feedback gives the empty summary, exactly; otherwise the total, the number of positive, negative and neutral entries (bounded by the total), and the NPS of those counts |
| Cpo.HandleTaskAssignment | src/agents/cpo.py:132-155 | a task whose lower-cased title mentions development or feature is passed to R&D at its priority; any other task is dropped |
| Cpo.HandleApprovalRequest | src/agents/cpo.py:219-300 | an approval response from the CPO to the sender: a product request type carries the evaluation's decision or the failure text, or raises TypeError when `json.dumps` refuses its details, the first three items of the roadmap (a roadmap that cannot be sliced, such as a dict, raises too) or the first five feedback entries; any other type is refused |
| Cpo.CpoAgent.constructor | src/agents/cpo.py:22-51 | a new agent holds no user feedback |
| Cpo.CpoAgent.HandleUserFeedback | src/agents/cpo.py:648-658 | the entry is appended and only the newest hundred are kept; the new entry is last |
| DataAnalyst.ChangePercent | src/agents/data_analyst.py:784-785 | the change in percent satisfies r * previous == (current - previous) * 100, and is 0 from a zero base |
| DataAnalyst.Direction | src/agents/data_analyst.py:787-792 | up exactly above +5%, down exactly below -5%, stable in between |
| DataAnalyst.DirectionFromPositiveBase | src/agents/data_analyst.py:784-792 | from a positive base, up means more than 5% above it and down more than 5% below it |
| DataAnalyst.LastTwo | src/agents/data_analyst.py:782-783 | the last and second-to-last history entries |
| DataAnalyst.CalculateTrend | src/agents/data_analyst.py:774-799 | fewer than two history entries give insufficient_data; otherwise the last two give direction, rounded change and both values; a history without a length or non-numeric entries fail |
| DataAnalyst.Shorten | src/agents/data_analyst.py:567-569 | a message over 100 characters becomes its first 100 plus "...", a shorter one is kept; long non-text values cannot be joined and unsized ones have no length |
| DataAnalyst.FeedbackRowOf | src/agents/data_analyst.py:562-570 | a row exists exactly for a dict item whose message can be shortened, numbered by its position with its sentiment and category |
| DataAnalyst.FeedbackTable | src/agents/data_analyst.py:558-572 | one row per item of the first fifty, each numbered by its position; the table exists exactly when each of those rows does |
| DataAnalyst.Progress | src/agents/data_analyst.py:548-551 | 0 without a positive target; otherwise at most 100, exactly 100 when the value reaches the target, non-negative for a non-negative value |
| DataAnalyst.KpiRowOf | src/agents/data_analyst.py:545-552 | the row of one metric: its target or "N/A" and its progress; a target or value that is not a number cannot be compared |
| DataAnalyst.KpiRowsSound | src/agents/data_analyst.py:544-555 | every row comes from one KPI entry that is not a target |
| DataAnalyst.KpiRowsComplete | src/agents/data_analyst.py:544-555 | every KPI entry that is not a target has a row carrying its value |
| DataAnalyst.KpiTable | src/agents/data_analyst.py:540-556 | every key must be text (`endswith`); then one row per non-target metric with its target and progress |
| DataAnalyst.AgentRows | src/agents/data_analyst.py:508-515 | one row per agent with its task count and share |
| DataAnalyst.AgentTable | src/agents/data_analyst.py:502-515 | one row per agent with its count and its share of the total in percent; every share is 0 when the total is 0 |
| DataAnalyst.AgentRowsPercent | src/agents/data_analyst.py:508-515 | the shares add up to the counted total over the divisor, in percent |
| DataAnalyst.AgentSharesTotal | src/agents/data_analyst.py:502-515 | once any task is counted the shares add up to 100% |
| DataAnalyst.KpiAnomalies | src/agents/data_analyst.py:584-604 | the checks succeed exactly when both KPIs are numbers; otherwise the comparison is a TypeError |
| DataAnalyst.SlowCheck | src/agents/data_analyst.py:584-593 | at most one anomaly, of kind slow_response, present exactly when the response time exceeds 500 |
| DataAnalyst.ErrorCheck | src/agents/data_analyst.py:595-604 | at most one anomaly, of kind high_error_rate, present exactly when the error rate exceeds 5 |
| DataAnalyst.KpiAnomalyKinds | src/agents/data_analyst.py:584-604 | slow_response is reported exactly when response_time exceeds 500 and high_error_rate exactly when error_rate exceeds 5, and no more than two anomalies come out |
| DataAnalyst.FailureScanIff | src/agents/data_analyst.py:606-619 | an agent is reported exactly when more than ten of its completed tasks failed |
| DataAnalyst.ScanFailures | src/agents/data_analyst.py:606-619 | the agent loop returns the failure scan of all agents, in order |
| DataAnalyst.OperationsAlert | src/agents/data_analyst.py:630-646 | a high-priority alert from the data analyst to operations |
| DataAnalyst.AnomalyAnalysis | src/agents/data_analyst.py:801-811 | the analysis names the data analyst and the alert's severity |
| DataAnalyst.ForwardedAlert | src/agents/data_analyst.py:146-157 | an alert to operations carrying the analysis and the severity, at critical priority for a critical alert and high otherwise |
| DataAnalyst.AlertContent | src/agents/data_analyst.py:150-155 | the forwarded content carries the severity and the analysis |
| DataAnalyst.HandleAlertAsWritten | src/agents/data_analyst.py:140-159 | as written, a critical or high alert is forwarded carrying the unawaited coroutine |
| DataAnalyst.AnalysisNeverAwaited | src/agents/data_analyst.py:154 | no forwarded alert ever carries the analysis dict |
| DataAnalyst.HandleAlert | src/agents/data_analyst.py:140-159 | exactly critical and high alerts are forwarded to operations at that priority, with the awaited analysis |
| DataAnalyst.AnalysisNamesSeverity | src/agents/data_analyst.py:801-811 | the forwarded analysis names the alert's severity |
| DataAnalyst.HandleApprovalRequest | src/agents/data_analyst.py:208-226 | an approval response from the data analyst to the sender: budget and financial requests raise TypeError exactly when `json.dumps` refuses the request, the company's KPIs or the prediction models (src/agents/data_analyst.py:966-970), and otherwise carry the evaluation's decision or failure text; any other type is refused |
| DataAnalyst.DataAnalystAgent.constructor | src/agents/data_analyst.py:22-59 | a new agent has detected no anomaly and holds no messages |
| DataAnalyst.DataAnalystAgent.DetectAnomalies | src/agents/data_analyst.py:575-628 | the KPI anomalies then the failing agents; the flag records whether any was found, and one alert is queued exactly when some was and an operations agent exists |
| DataAnalyst.Detect | src/agents/data_analyst.py:575-619 | the collected anomalies are the KPI anomalies followed by the failing agents, or the KPI comparison's TypeError |
| DataAnalyst.AnomalyAlerts | src/agents/data_analyst.py:621-626 | at most one alert, addressed to the operations agent, and one exactly when something was found and an operations agent is registered |
| Cto.Readiness | src/agents/cto.py:868-881 | the readiness score lies in [0, 100] and is 100 exactly when all four checks are present |
| Cto.ReadinessEighty | src/agents/cto.py:868-881 | a score of at least 80 means every check but documentation is present |
| Cto.DeploymentApproval | src/agents/cto.py:403-407 | the approval is truthy exactly when readiness is at least 80 and a rollback plan and security scan are present |
| Cto.ApprovalNeedsChecks | src/agents/cto.py:403-407 | an approved deployment has testing, a rollback plan, performance testing and a security scan |
| Cto.DeploymentWindow | src/agents/cto.py:892-899 | the weekend window for high risk, the weekday evening one for medium (the default), any time otherwise |
| Cto.DecisionMessage | src/agents/cto.py:409-421 | an approval response from the CTO to the sender carrying the decision |
| Cto.EvaluateDeploymentRequest | src/agents/cto.py:389-422 | the decision holds the approval, the assessment and the window; non-dict details fail |
| Cto.CriticalCount | src/agents/cto.py:851-852 | the count exists exactly when every risk factor is text, and is 0 exactly when none mentions "critical" ignoring case |
| Cto.ArchitectureApproved | src/agents/cto.py:848-853 | never for high complexity; otherwise approved exactly when no risk factor mentions "critical" |
| Cto.RisksNotCritical | src/agents/cto.py:845-846 | neither fixed risk factor mentions "critical" |
| Cto.ArchitectureAlwaysApproved | src/agents/cto.py:841-853 | with the fixed medium complexity and fixed risks, every change is approved |
| Cto.ClearListApproved | src/agents/cto.py:848-853 | risk texts none of which mentions "critical" approve a change that is not of high complexity |
| Cto.ApprovedWhenClear | src/agents/cto.py:848-853 | a change not of high complexity with no critical risk factor is approved |
| Cto.ImplementationTimeline | src/agents/cto.py:855-858 | the timeline for low, medium (the default) and high complexity, and the fallback for anything else |
| Cto.Analysis | src/agents/cto.py:361-367 | the analysis has the fixed medium complexity and fixed risk list |
| Cto.ShouldApprove | src/agents/cto.py:848-853 | a missing key is a KeyError; high complexity rejects without reading the risks |
| Cto.AnalysisApproves | src/agents/cto.py:355-376 | whatever the proposal, its analysis approves it |
| Cto.ArchitectureDecision | src/agents/cto.py:369-376 | the decision says approved |
| Cto.EvaluateArchitectureChange | src/agents/cto.py:355-387 | the response approves with the timeline of the proposal's complexity; a non-dict proposal fails |
| Cto.GrowthBand | src/agents/cto.py:962-968 | band 0 exactly below 20% growth, band 2 exactly from 50% |
| Cto.GrowthBandMonotone | src/agents/cto.py:962-968 | faster growth never lands in a lower band |
| Cto.ScalingTimeline | src/agents/cto.py:962-968 | the scaling timeline of the growth band |
| Cto.InfrastructureInvestment | src/agents/cto.py:970-976 | the investment range of the growth band |
| Cto.HandleTaskAssignment | src/agents/cto.py:193-217 | a task whose lower-cased title mentions development or coding goes on to R&D at its priority; any other is dropped |
| Cto.HandleAlert | src/agents/cto.py:424-443 | exactly security_breach, performance_degradation and system_failure become a high-priority technical_incident alert to operations |
| Cto.HandleApprovalRequest | src/agents/cto.py:269-353 | technology adoption goes to the evaluation oracle, raising TypeError exactly when `json.dumps` refuses its details (lists and tuples encode; dict keys must be text, numbers, booleans or None); architecture changes and deployments follow their rules, any other type is refused; otherwise an approval response to the sender |
| Rd.RouteOf | src/agents/rd.py:121-128 | development words win, then testing, then review, then bug words, and a title with none is queued; each branch both ways |
| Rd.TestingContainsTest | src/agents/rd.py:123 | the testing check reduces to containing "test" |
| Rd.TestKindOf | src/agents/rd.py:640 | unit when the lower-cased title mentions unit, else integration when it mentions integration, else e2e |
| Rd.Raised | src/agents/rd.py:411-412 | the chosen type gains 15 points up to 100, the others keep theirs, the total becomes the mean of the four entries, and coverage stays within 0..100 |
| Rd.RaisedTimesValue | src/agents/rd.py:411 | after n successful runs a type's coverage is its start plus 15 per run, capped at 100 |
| Rd.SevenRunsSaturate | src/agents/rd.py:411 | seven successful runs of one type bring it to full coverage from any valid start |
| Rd.ReviewCode | src/agents/rd.py:428-472 | an approved review adds 2 to health up to 100, any other adds a twentieth of its quality score to the debt; a failed reply or one that is not a dict fails the review and changes nothing |
| Rd.FixedHealth | src/agents/rd.py:569 | a fix lowers health by 5, never below 0 |
| Rd.HealthStaysInRange | src/agents/rd.py:428-472 | after a review and a fix, health stays within 0..100 whatever the replies |
| Rd.FeatureRecord | src/agents/rd.py:367-373 | the recorded feature carries the task's id and title |
| Rd.Endpoint | src/agents/rd.py:977 | an endpoint exists exactly for a feature with both an id and a name, with its path and name; a missing key is a KeyError |
| Rd.ApiEndpoints | src/agents/rd.py:976-979 | one endpoint for each of the first five features, in order; the list exists exactly when each of those endpoints does |
| Rd.WellFormedDocuments | src/agents/rd.py:974-982 | the agent's own features always document without error |
| Rd.ApiDocumentation | src/agents/rd.py:974-982 | the documentation holds exactly the endpoint list |
| Rd.FindFeature | src/agents/rd.py:852 | the index of the first feature whose id equals the requested one; None exactly when no feature has it |
| Rd.ApprovedIffAtMostOneMissing | src/agents/rd.py:988-1000 | a readiness of 70 tolerates one missing check, whichever it is, and never two |
| Rd.UntestedDeploymentApproved | src/agents/rd.py:842 | a deployment without completed testing but with everything else is approved here and refused by the CTO's rule |
| Rd.CtoApprovalImpliesRd | src/agents/rd.py:842 | whatever the CTO's rule approves, this one approves |
| Rd.DeploymentWindow | src/agents/rd.py:1002-1009 | the weekend window for high risk, the weekday one for medium (the default), any time otherwise, each both ways |
| Rd.DeploymentApprovalReply | src/agents/rd.py:822-846 | an approval response to the CTO whose decision approves exactly at readiness 70 or more; details that are not a dict fail |
| Rd.FeatureCompletionReply | src/agents/rd.py:848-878 | a completion report to the CTO for a known feature, feature_not_found otherwise |
| Rd.HandleApprovalRequest | src/agents/rd.py:270-279 | deployment and feature_completion requests are answered by their replies, any other type gets none |
| Rd.Rejection | src/agents/rd.py:97-106 | a task_rejection from R&D back to the sender |
| Rd.ToCto | src/agents/rd.py:597-735 | a reply from R&D to the CTO whose content is typed |
| Rd.FailureAlertNeverSent | src/agents/rd.py:620-631 | as written, every failure alert raises TypeError (`create_message` takes no `severity`) |
| Rd.FailureAlert | src/agents/rd.py:620-631 | the failure alert as intended: a high-priority alert to the CTO with its type and error |
| Rd.HandleAlertAsWritten | src/agents/rd.py:194-202 | as written, an alert of any other type gets no reply |
| Rd.EscalationsNeverSent | src/agents/rd.py:782-806 | as written, both escalations raise TypeError instead of reaching the CTO |
| Rd.HandleAlert | src/agents/rd.py:194-202 | exactly deployment_failure and high_priority_bug alerts are escalated to the CTO at critical priority, as deployment_issue and high_priority_bug_detected |
| Rd.ParseTask | src/agents/rd.py:108-118 | the task exists exactly when priority and deadline parse; it is assigned by the CTO to R&D, pending, with its title, own id (or a fresh one) and priority |
| Rd.RdAgent.constructor | src/agents/rd.py:15-67 | a new agent has an empty state, no features, health 85, no debt, a passing build, zero coverage, the development environment |
| Rd.RdAgent.ProcessDevelopmentTask | src/agents/rd.py:597-631 | a planned implementation is recorded and the build marked building; a failed implementation raises TypeError from the failure alert and changes nothing |
| Rd.RdAgent.ProcessTestingTask | src/agents/rd.py:633-667 | successful tests raise the coverage of the title's test type and report it; failed tests raise TypeError from the failure alert and change nothing |
| Rd.RdAgent.ProcessCodeReviewTask | src/agents/rd.py:669-699 | the review verdict moves health or debt and is reported, or the review error is reported |
| Rd.RdAgent.ProcessBugFixTask | src/agents/rd.py:701-734 | a fix plan costs 5 health and marks the environment as fixing; a failed plan raises TypeError from the failure alert and changes nothing |
| Rd.RdAgent.Dispatch | src/agents/rd.py:121-140 | the step the lower-cased title selects runs, with its reply or its TypeError; an unmatched task is acknowledged as queued |
| Rd.RdAgent.HandleTaskAssignment | src/agents/rd.py:92-142 | a sender other than the CTO is refused and nothing changes; otherwise the parsed task is added (workload +0.1, last active now) and dispatched, a failing step raising after the task was added; an unparsable task changes nothing |
| Cfo.BudgetIn | src/agents/cfo.py:53-60 | the budget of the first department row with that name, 0 when no row has it |
| Cfo.BudgetsPositive | src/agents/cfo.py:53-60 | every listed department has a positive budget, and no budget is negative |
| Cfo.DepartmentBudget | src/agents/cfo.py:979-983 | the department's budget, never negative and positive only for a listed text name; an unhashable department is a TypeError |
| Cfo.BudgetOverrunAsWritten | src/agents/cfo.py:976-991 | as written the percentage is guarded but the severity divides by the budget, so a department without a budget raises ZeroDivisionError |
| Cfo.MissingDepartmentRaises | src/agents/cfo.py:976-991 | an overrun alert naming no department makes the analysis raise ZeroDivisionError |
| Cfo.OverrunSeverity | src/agents/cfo.py:990 | high exactly when the overrun exceeds a tenth of a positive budget, medium otherwise |
| Cfo.OverrunPercentage | src/agents/cfo.py:989 | the overrun in percent of a positive budget (p * budget == amount * 100), 0 without one |
| Cfo.BudgetOverrun | src/agents/cfo.py:976-991 | with the guard on the severity too: the analysis names the department, budget and overrun, with the percentage and severity above |
| Cfo.MissingDepartmentMedium | src/agents/cfo.py:976-991 | the alert that made the written analysis raise is a medium overrun of no budget |
| Cfo.OverrunFixAgrees | src/agents/cfo.py:976-991 | wherever the written analysis succeeds the corrected one agrees with it |
| Cfo.OverrunActions | src/agents/cfo.py:993-1001 | five actions, the first naming the department |
| Cfo.RiskLevel | src/agents/cfo.py:1011-1015 | critical under 6 months of runway, high under 12, medium from 12, each both ways |
| Cfo.WarningSigns | src/agents/cfo.py:1019-1031 | the severe warning exactly under 6 months, the runway warning under 12, the burn warning above 100000, negative cash flow when revenue is below the burn rate; at most four |
| Cfo.OwnFiguresWarn | src/agents/cfo.py:62-72 | with the agent's own revenue of 0 and burn rate of 50000 the negative cash-flow warning is always given and the burn warning never |
| Cfo.Mitigations | src/agents/cfo.py:1033-1047 | seven steps under 6 months, four under 12, two otherwise, always ending with the two generic ones |
| Cfo.MitigationsMonotone | src/agents/cfo.py:1033-1047 | a shorter runway never gets fewer mitigation steps |
| Cfo.AssessCashFlow | src/agents/cfo.py:1003-1017 | the runway (12 when absent) gives the risk level and warning signs; a runway that is not a number cannot be compared |
| Cfo.EstimateSavings | src/agents/cfo.py:1049-1060 | 15% of a cost above 10000 and 10% otherwise, a missing category costing 0 |
| Cfo.Strategies | src/agents/cfo.py:1062-1103 | four strategies for AI compute and cloud services, three for personnel and anything else |
| Cfo.OverrunReport | src/agents/cfo.py:383-397 | a status report from the CFO to the CEO typed budget_overrun_detected |
| Cfo.CashFlowWarning | src/agents/cfo.py:398-412 | an alert from the CFO to the CEO typed cash_flow_warning |
| Cfo.CostRecommendation | src/agents/cfo.py:413-427 | a collaboration from the CFO to operations typed cost_optimization_recommended |
| Cfo.HandleAlert | src/agents/cfo.py:377-429 | budget overruns reported to the CEO, or the as-written analysis's TypeError or ZeroDivisionError (a department without a budget); cash-flow risks alerted to the CEO, high costs passed to operations, anything else no message |
| Cfo.OverrunAlertRaises | src/agents/cfo.py:377-429 | an overrun alert naming no department makes the handler raise ZeroDivisionError |
| Cfo.DecisionReply | src/agents/cfo.py:1141-1154 | an approval response from the CFO to the sender whose verdict is the decision's approved field |
| Cfo.ExpenseDecision | src/agents/cfo.py:1224-1249 | approved exactly below 5000, with the amount approved in full, 0 when refused; details must be a dict and the amount a number |
| Cfo.CapexDecision | src/agents/cfo.py:1172-1194 | never approved; the capex request must be a dict |
| Cfo.InvestmentDecision | src/agents/cfo.py:1196-1222 | never approved |
| Cfo.BudgetAllocationDecision | src/agents/cfo.py:1105-1170 | the reply's approved (False when absent), amount, justification and conditions; any failure gives a refusal naming it |
| Cfo.HandleApprovalRequest | src/agents/cfo.py:343-375 | the four request types are decided by their rules, any other is refused; always an approval response to the sender |
| Cfo.ExpenseApprovedIff | src/agents/cfo.py:1230 | a well-formed reimbursement request is approved exactly below 5000 |
| Cmo.Add | src/agents/cmo.py:797-802 | the sum of two numbers, whole when both are whole and a float otherwise; any other operand is a TypeError |
| Cmo.In | src/agents/cmo.py:319-323 | `k in o` looks at dict keys, list and tuple items or substrings; any other value is a TypeError |
| Cmo.NextActions | src/agents/cmo.py:829-833 | at most five actions: the first five recommendations when they are a list, none otherwise |
| Cmo.NextActionsPrefix | src/agents/cmo.py:829-833 | every next action is the recommendation at the same position |
| Cmo.HandleTaskAssignment | src/agents/cmo.py:164-188 | a task whose lower-cased title mentions marketing or campaign goes to operations flagged as marketing; any other gives no message; a non-text title or unparsable task fails |
| Cmo.HandleAlert | src/agents/cmo.py:285-303 | exactly marketing_crisis, brand_sentiment_negative and campaign_underperformance become a high-severity marketing_incident alert to operations |
| Cmo.DataReceived | src/agents/cmo.py:326-335 | a marketing_data_received acknowledgement from the CMO to the sender |
| Cmo.CmoAgent.constructor | src/agents/cmo.py:55-71 | a new agent has no market trends and zero conversion rate, leads, revenue and success rate |
| Cmo.CmoAgent.AddEntry | src/agents/cmo.py:797-802 | adding a present key's number to the metric; an absent key leaves it; a non-number is a TypeError |
| Cmo.CmoAgent.UpdateCampaignMetrics | src/agents/cmo.py:791-808 | the conversion rate replaced, leads then revenue incremented, the success rate replaced, stopping with TypeError at a non-number and keeping what was written; a non-dict changes nothing |
| Cmo.CmoAgent.HandleDataResponse | src/agents/cmo.py:315-335 | campaign performance updates the metrics (a failure propagates before the trends are touched), market research is appended once, and the sender is acknowledged |
| Ceo.MessageThemes | src/agents/ceo.py:574-579 | a message raises the feature theme exactly when it mentions feature, the bug theme for bug or error, the performance theme for slow or performance; nothing else |
| Ceo.FeedbackMessage | src/agents/ceo.py:573 | a message is read exactly from a dict item whose message is text; otherwise AttributeError |
| Ceo.FeedbackThemesOk | src/agents/ceo.py:572-579 | themes are read exactly when every message is; otherwise AttributeError |
| Ceo.FeedbackThemesWithin | src/agents/ceo.py:572-579 | only the three fixed themes are found |
| Ceo.FeedbackThemesIn | src/agents/ceo.py:572-579 | a theme is found exactly when some item raises it |
| Ceo.ThemeList | src/agents/ceo.py:581 | the listed themes have no repeats and are exactly the set found |
| Ceo.Sample | src/agents/ceo.py:572 | the sample is the first min(10, n) items |
| Ceo.ExtractThemes | src/agents/ceo.py:567-581 | the distinct themes of the first ten items; an unreadable message fails with AttributeError |
| Ceo.ThemesStep | src/agents/ceo.py:572-579 | one more item adds its message's themes, or fails reading it |
| Ceo.MessageThemeList | src/agents/ceo.py:574-579 | what one message appends is exactly its theme set |
| Ceo.SetOf | src/agents/ceo.py:581 | `set(themes)` holds exactly the listed themes |
| Ceo.SetOfConcat | src/agents/ceo.py:581 | the set of a concatenation is the union of the sets |
| Ceo.Count | src/agents/ceo.py:553-555 | a sentiment count never exceeds the number of items |
| Ceo.CountsWithinTotal | src/agents/ceo.py:553-555 | the three sentiment counts together never exceed the total |
| Ceo.SummarizeFeedback | src/agents/ceo.py:548-565 | no summary of falsy feedback; otherwise the item count, the number of items whose sentiment is positive, negative and neutral, and the themes of the first ten; non-iterable feedback fails, and a non-dict item raises AttributeError |
| Ceo.Leading | src/agents/ceo.py:623-633 | the first n recommendations when they are a list, none otherwise |
| Ceo.NextActions | src/agents/ceo.py:629-633 | at most three next actions, the leading recommendations |
| Ceo.ActionItems | src/agents/ceo.py:623-627 | at most five action items, the leading recommendations |
| Ceo.NextActionsLeadActionItems | src/agents/ceo.py:623-633 | the next actions are a prefix of the action items |
| Ceo.UrgentTask | src/agents/ceo.py:149-156 | the urgent task carries its id, critical priority and a deadline two hours from now |
| Ceo.HandleAlert | src/agents/ceo.py:137-161 | exactly a critical or high alert becomes a critical task assignment from the CEO to operations; any other gives no message |
| Ceo.HandleApprovalRequest | src/agents/ceo.py:163-227 | an approval response to the sender carrying the evaluation's decision, a refusal when evaluation fails; a request `json.dumps` refuses (a date, an object, a dict key that is not text, a number, a boolean or None) is a TypeError, while lists and tuples encode |
| Ceo.Min100 | src/agents/ceo.py:592 | `min(100, x)` is x below 100 and 100 otherwise |
| Ceo.Row | src/agents/ceo.py:585-595 | a goal's row: its current metric (0 when untracked), its target (100 by default) and completion min(100, current/target*100) for a positive target, 0 otherwise; non-dict targets, non-numeric values and unhashable goals fail |
| Ceo.ProgressKeys | src/agents/ceo.py:583-597 | the progress has an entry for exactly the goals |
| Ceo.ProgressRows | src/agents/ceo.py:583-597 | each progress entry is the row of a goal with that key |
| Ceo.GoalProgress | src/agents/ceo.py:585 | goals that are not a dict have no `items` (AttributeError) |
| Ceo.NoProgressYet | src/agents/ceo.py:52-57 | with no metric recorded yet, every goal with a positive target is at 0% |
| Ceo.DataReceived | src/agents/ceo.py:237-246 | a data_received acknowledgement from the CEO to the sender |
| Ceo.CeoAgent.constructor | src/agents/ceo.py:21-57 | a new agent has no strategic goals and no market trends |
| Ceo.CeoAgent.AdoptStrategicPlan | src/agents/ceo.py:356 | a produced strategic plan becomes the goals; trends unchanged |
| Ceo.CeoAgent.HandleDataResponse | src/agents/ceo.py:229-246 | market analysis is appended to the trends exactly once; goals unchanged; the sender is acknowledged |
| Ceo.CeoAgent.AssessGoalProgress | src/agents/ceo.py:583-597 | the loop computes one row per goal in the goals' order, as the progress function describes |
| Ceo.ProgressErrStays | src/agents/ceo.py:586-595 | once a prefix of the goals fails, the whole run fails the same way |
| GoTask.GenerateTaskID | ds/task.go:80-82 | the ID begins with "auto_" and has a non-empty timestamp after it |
| GoTask.RemoveFirstGone | ds/task.go:102-111 | removing the first occurrence from a duplicate-free slice removes it entirely and keeps the slice duplicate-free |
| GoTask.Task.constructor | ds/task.go:47-63 | the new task has the given fields, no dependencies, deliverables or metadata, created and updated now |
| GoTask.Task.SetDependencies | ds/task.go:85-88 | only the dependencies and the update time change |
| GoTask.Task.AddDependency | ds/task.go:91-100 | an existing dependency changes nothing, not even the update time; a new one is appended; no duplicates are introduced |
| GoTask.Task.RemoveDependency | ds/task.go:102-111 | the first occurrence is removed and the update time set; an absent dependency changes nothing |
| GoTask.Task.SetDeliverables | ds/task.go:113-116 | only the deliverables and the update time change |
| GoTask.Task.AddDeliverable | ds/task.go:119-128 | an existing deliverable changes nothing; a new one is appended; no duplicates are introduced |
| GoTask.Task.SetDeadline | ds/task.go:130-133 | only the deadline and the update time change |
| GoTask.Task.SetMetadata | ds/task.go:136-139 | only the metadata and the update time change |
| GoTask.Task.SetStatus | ds/task.go:142-145 | only the status and the update time change, whatever the transition |
| GoTask.Task.SetPriority | ds/task.go:148-151 | only the priority and the update time change |
| GoTask.Task.Copy | ds/task.go:154-185 | a fresh task with equal fields |
| GoTask.Task.Clone | ds/task.go:213-217 | a fresh task whose fields are the updater applied to a copy; the original is unchanged |
| GoTask.Task.IsCompleted | ds/task.go:188-196 | a completed, failed or cancelled task is never pending |
| GoTask.Task.HasDependencyOn | ds/task.go:203-210 | true exactly when the ID is among the dependencies |
| GoTask.Task.DependenciesIff | ds/task.go:198-210 | a task has dependencies exactly when it depends on some ID |
| GoTypes.RemoveFirst | ds/task.go:102-111 | without the element nothing changes; otherwise exactly one copy leaves, the first, and the elements before it keep their places |
| GoTypes.Filter | state/global_state.go:217-228 | the kept elements all pass the test and come from the slice, and every passing element is kept |
| GoTypes.Recent | state/agent_state.go:132-151 | none for a count of zero or less; otherwise the last min(count, length) elements, in order |
| GoTypes.Bounded | agents/agent_base.go:591-602 | the new element is last; the oldest is dropped once the cap is reached, so a history within the cap stays within it |
| GoPriorityQueue.PriorityValue | scheduler/priority_queue.go:16-21 | Critical 0, High 1, Medium 2, Low 3; an unknown priority string reads the map's zero value |
| GoPriorityQueue.FirstWithPriority | scheduler/priority_queue.go:87-93 | the position of the first task with exactly that priority string, or the length when there is none |
| GoPriorityQueue.TaskQueue.constructor | scheduler/priority_queue.go:29-34 | an empty queue with no last-use times |
| GoPriorityQueue.TaskQueue.Enqueue | scheduler/priority_queue.go:36-42 | the task is appended and its priority's last-use time stamped |
| GoPriorityQueue.TaskQueue.SortByPriority | scheduler/priority_queue.go:98-108 | the queue becomes a sorted permutation of itself, with a least-rank task first; a sorted queue is left as it is |
| GoPriorityQueue.ExchangeSort | scheduler/priority_queue.go:98-108 | the nested swap loops yield a sorted permutation whose head has the least rank |
| GoPriorityQueue.InnerPass | scheduler/priority_queue.go:100-106 | one inner pass settles position i with the least rank of the suffix, keeping the multiset |
| GoPriorityQueue.Swap | scheduler/priority_queue.go:104 | two positions exchanged, the rest unchanged, same multiset |
| GoPriorityQueue.Least | scheduler/priority_queue.go:53-54 | the head of a sorted permutation has the least rank of the original queue |
| GoPriorityQueue.TaskQueue.Dequeue | scheduler/priority_queue.go:44-57 | empty: nil and no change; otherwise a task of least rank leaves the queue and nothing else is lost; on a sorted queue it is the first task |
| GoPriorityQueue.TaskQueue.Peek | scheduler/priority_queue.go:59-69 | nil exactly when empty; otherwise the least-rank task, the queue left sorted with the same contents |
| GoPriorityQueue.TaskQueue.IsEmpty | scheduler/priority_queue.go:71-81 | empty exactly when the length is zero |
| GoPriorityQueue.TaskQueue.GetByPriority | scheduler/priority_queue.go:83-96 | the first task with that priority string is removed and returned and its last-use time stamped; none: nil and no change |
| GoAutoScheduler.FirstReady | scheduler/auto_scheduler.go:210-212 | the position of the first task whose dependencies are met, or the length when there is none |
| GoAutoScheduler.NextReady | scheduler/auto_scheduler.go:202-217 | the first ready task of the first tier, in Critical, High, Medium, Low order, that has one; no earlier tier has a ready task; none when no tier has one; a queue under any other name is never picked |
| GoAutoScheduler.RequeueTier | scheduler/auto_scheduler.go:278-291 | each task priority maps to its own tier and anything else to Medium; the result is always one of the four tiers |
| GoAutoScheduler.Successes | scheduler/auto_scheduler.go:177-185 | the number of accepted dispatches is at most the number of answers |
| GoAutoScheduler.SuccessesSnoc | scheduler/auto_scheduler.go:177-185 | one more answer adds one success exactly when it is an acceptance |
| GoAutoScheduler.TotalRemove | scheduler/auto_scheduler.go:124-130 | the total queue length is any one queue's length plus the total of the others |
| GoAutoScheduler.TotalUpdate | scheduler/auto_scheduler.go:71-78 | replacing or adding one queue changes the total by the difference in length |
| GoAutoScheduler.AutoScheduler.constructor | scheduler/auto_scheduler.go:37-54 | four empty tier queues, no agents, the given global state, and a tick of 5 seconds when the given one is not positive |
| GoAutoScheduler.AutoScheduler.AddTask | scheduler/auto_scheduler.go:71-89 | the task is appended to the named queue, created when missing; the total grows by one; the task is also recorded in the global state when there is one |
| GoAutoScheduler.AutoScheduler.AddAgent | scheduler/auto_scheduler.go:92-101 | a fresh load record with no load replaces any earlier one under the name |
| GoAutoScheduler.AutoScheduler.OnTaskComplete | scheduler/auto_scheduler.go:104-121 | a known agent with some load loses one, whether the task succeeded or failed; otherwise nothing changes |
| GoAutoScheduler.AutoScheduler.GetQueueLength | scheduler/auto_scheduler.go:124-130 | the sum of all queue lengths |
| GoAutoScheduler.AutoScheduler.GetQueueLengthByPriority | scheduler/auto_scheduler.go:133-139 | the named queue's length, 0 when there is no such queue, never above the total |
| GoAutoScheduler.AutoScheduler.AreDependenciesMet | scheduler/auto_scheduler.go:220-234 | true without dependencies or without a global state; otherwise exactly when every dependency is known and completed |
| GoAutoScheduler.AutoScheduler.DequeueIf | scheduler/auto_scheduler.go:210-212 | the first ready task of the queue is taken out; with none the queue is unchanged |
| GoAutoScheduler.AutoScheduler.FindReady | scheduler/auto_scheduler.go:210-212 | the readiness test tried on each task in turn stops at the first ready one |
| GoAutoScheduler.AutoScheduler.GetNextReady | scheduler/auto_scheduler.go:202-217 | the task the tier scan selects leaves its queue and the total drops by one; nothing changes when no task is ready |
| GoAutoScheduler.AutoScheduler.ScanTiers | scheduler/auto_scheduler.go:203-216 | the loop over the four tiers takes out the task the tier scan selects |
| GoAutoScheduler.AutoScheduler.FindBestAgent | scheduler/auto_scheduler.go:237-275 | nil exactly when the named agent is unknown or full, or, for an unassigned task, every agent is full; otherwise the named agent, or a candidate with room that no other sorts before by load ratio then larger hierarchy |
| GoAutoScheduler.AutoScheduler.RequeueTask | scheduler/auto_scheduler.go:278-295 | the task goes back to the end of its priority's tier when that tier has a queue, and the total grows by one |
| GoAutoScheduler.AutoScheduler.DispatchTasks | scheduler/auto_scheduler.go:158-199 | the dispatched tasks are those the dispatcher accepted; for every task id, the copies still queued plus the dispatched ones equal the copies queued before (none lost or doubled); each dispatched task is assigned to a registered agent, and each agent's load grew by exactly the tasks dispatched to it, nothing else in its record changing; a lone ready task that always fails keeps the loop going until the answers run out; when the loop stops before the answers run out, its last round (from the returned queues and loads it started from) found no ready task, leaving none in the queues, or took the task `getNextReady` picks and found no agent for it (`NoAgentFor`), putting it back with the loads unchanged |
| GoAutoScheduler.AutoScheduler.DispatchOne | scheduler/auto_scheduler.go:159-198 | nothing ready exactly when the tier scan finds no ready task, and then no change; otherwise the task the scan picks leaves its queue and: with no agent `findBestAgent` would give it, goes back to its tier; else it is assigned to an agent `findBestAgent` may choose and either, refused, goes back to its tier with loads unchanged, or, accepted, stays out and that agent's load alone grows by one; ids are conserved |
| GoAutoScheduler.AutoScheduler.Place | scheduler/auto_scheduler.go:165-197 | for the task taken: no agent exactly when `findBestAgent` finds none, and the task is requeued; otherwise assigned to the best agent, and requeued when refused or charged to that agent when accepted; the queue total grows by one unless sent |
| GoAutoScheduler.NoTaskLeavesNone | scheduler/auto_scheduler.go:160-163 | a round in which `getNextReady` returns nil leaves queues in which the tier scan finds no ready task |
| GoAutoScheduler.PlacedKeeps | scheduler/auto_scheduler.go:158-199 | a round that took a task out and placed it keeps every task id queued unless sent, and raises only the sent task's agent's load |
| GoAutoScheduler.DispatchedTrans | scheduler/auto_scheduler.go:158-199 | two dispatch rounds in a row dispatch the tasks of both, with ids conserved and loads summed |
| GoAutoScheduler.AutoScheduler.Charge | scheduler/auto_scheduler.go:191-193 | an agent with room gains one task and stays within its limit |
| GoAutoScheduler.AssignedKeepsAgent | scheduler/auto_scheduler.go:174-176 | assigning a task to the agent picked for it keeps it ready and keeps that agent available to it |
| GoAutoScheduler.LoneIsNext | scheduler/auto_scheduler.go:202-217 | a lone ready task is what the tier scan finds |
| GoAutoScheduler.EmptyTotal | scheduler/auto_scheduler.go:124-130 | empty queues total zero |
| GoWorklist.FilingPriority | scheduler/worklist.go:28-35 | the metadata's "priority" string when there is one, otherwise Low |
| GoWorklist.Resolve | scheduler/worklist.go:50-57 | the present tasks for the listed IDs, in list order; every listed present ID is resolved and nothing else is |
| GoWorklist.RemoveFirstKeeps | scheduler/worklist.go:69-76 | removing one ID's first listing keeps every other ID listed |
| GoWorklist.RemoveKeepsValid | scheduler/worklist.go:60-78 | dropping a task and its first listings keeps every remaining task filed under its priority |
| GoWorklist.WorkList.constructor | scheduler/worklist.go:15-20 | no tasks and no listings |
| GoWorklist.WorkList.AddTask | scheduler/worklist.go:22-38 | the task is stored under its ID and its ID appended under its filing priority; the count grows only for a new ID |
| GoWorklist.WorkList.GetTask | scheduler/worklist.go:40-44 | found exactly when the ID is stored, and then the stored task |
| GoWorklist.WorkList.GetTasksByPriority | scheduler/worklist.go:46-58 | the present tasks listed under the priority, in list order |
| GoWorklist.WorkList.RemoveTask | scheduler/worklist.go:60-78 | an unknown ID changes nothing; otherwise the task goes and its first listing in every priority list is removed; the list stays consistent |
| GoWorklist.WorkList.GetAllTasks | scheduler/worklist.go:80-89 | every stored task exactly once |
| GoWorklist.WorkList.ListedIsFound | scheduler/worklist.go:22-58 | a stored task is among the tasks resolved for its filing priority |
| GoWorklist.StaleListing | scheduler/worklist.go:22-38 | a task added twice and removed once leaves one listing behind, which LenByPriority still counts and resolution skips |
| GoScheduleTimer.FindEntry | scheduler/timer_engine.go:28-32 | the position of the first entry with the ID, or the length when there is none |
| GoScheduleTimer.TimerEngine.constructor | scheduler/timer_engine.go:18-22 | an empty schedule |
| GoScheduleTimer.TimerEngine.RegisterJob | scheduler/timer_engine.go:24-41 | never an error; a known ID changes nothing; a new one is appended; IDs stay unique |
| GoScheduleTimer.TimerEngine.UnregisterJob | scheduler/timer_engine.go:43-53 | the first entry with the ID is removed; an unknown ID changes nothing; with unique IDs the ID is gone afterwards |
| GoScheduleTimer.TimerEngine.Stop | scheduler/timer_engine.go:58-62 | the schedule is emptied |
| GoScheduleTimer.RemoveUnique | scheduler/timer_engine.go:47-51 | removing an entry from a schedule with unique IDs keeps them unique and leaves no entry with that ID |
| GoTaskGenerator.Templates | scheduler/task_generator.go:19-35 | each of the eleven known roles has three templates; any other name has none |
| GoTaskGenerator.GenerateTasks | scheduler/task_generator.go:37-64 | one pending task per template, in order, titled and described by it, assigned by the role to itself, filed under Medium, with an "auto_" ID |
| GoTaskGenerator.SameIds | scheduler/task_generator.go:37-68 | all tasks of a call that reads the clock once carry the same ID, because the ID has a resolution of one second |
| GoTimer.NewJob | timer/timer_engine.go:54-68 | a job carries its configuration's name, target, title and description, the parsed interval, Medium when no priority is given, is enabled and has never run |
| GoTimer.Configured | timer/timer_engine.go:43-75 | the jobs kept from the configuration are at most as many as its entries, each enabled, never run and with a priority |
| GoTimer.ConfiguredKeepsAll | timer/timer_engine.go:43-68 | when every interval parses, every entry becomes its job, in order |
| GoTimer.ConfiguredSkips | timer/timer_engine.go:44-52 | an entry whose interval does not parse yields no job |
| GoTimer.Fired | timer/timer_engine.go:120-130 | a check fires at most one task per job |
| GoTimer.FiredSnoc | timer/timer_engine.go:120-130 | a check fires the earlier jobs' tasks followed by the last job's task exactly when it is due |
| GoTimer.FiredTasks | timer/timer_engine.go:120-156 | every due job's task is fired and every fired task comes from a due job |
| GoTimer.Advance | timer/timer_engine.go:126-129 | a due job is stamped with the check time; any other job is untouched |
| GoTimer.AfterCheck | timer/timer_engine.go:120-130 | the check keeps the number of jobs |
| GoTimer.AfterCheckAt | timer/timer_engine.go:120-130 | each job is advanced on its own and keeps its place |
| GoTimer.EnqueuedAppend | timer/timer_engine.go:149 | enqueuing two batches of fired tasks is enqueuing their concatenation |
| GoTimer.RecordedAppend | timer/timer_engine.go:149 | recording two batches of fired tasks in the global state is recording their concatenation |
| GoTimer.OnlyLastRecorded | timer/timer_engine.go:135-149 | fired tasks that share one ID leave only the last of them in the global state's task map |
| GoTimer.FirstCheckFiresAll | timer/timer_engine.go:125-129 | the first check after construction fires every enabled, never-run job, in job order |
| GoTimer.ConfiguredFireAtFirstCheck | timer/timer_engine.go:35-79 | every configured job fires at the first check |
| GoTimer.NoRefireAtSameTick | timer/timer_engine.go:126 | a second check at the same instant fires nothing when every interval is positive |
| GoTimer.TimerEngine.constructor | timer/timer_engine.go:35-79 | the engine holds the scheduler and the configured jobs, and is neither running nor stopped |
| GoTimer.TimerEngine.Start | timer/timer_engine.go:82-90 | without jobs there is no tick loop; otherwise the engine runs; jobs unchanged |
| GoTimer.TimerEngine.Stop | timer/timer_engine.go:93-97 | the first call stops the engine and its tick loop, jobs unchanged; a second call closes the closed channel and panics, changing nothing |
| GoTimer.TimerEngine.FireJob | timer/timer_engine.go:134-156 | the job's task is added to the scheduler under the job's priority: one more queued task, loads and global state otherwise as before |
| GoTimer.TimerEngine.CheckJob | timer/timer_engine.go:120-130 | one round of the check keeps the loop's progress invariant for one more job |
| GoTimer.TimerEngine.FireDue | timer/timer_engine.go:116-131 | the job list becomes its advanced form and the scheduler's queues gain exactly the fired tasks, in job order |
| GoTimer.TimerEngine.CheckAndFire | timer/timer_engine.go:116-131 | every due job fires in job order and is stamped with the check time; the scheduler gains exactly those tasks |
| GoTimer.TimerEngine.AddJob | timer/timer_engine.go:159-163 | the job is appended |
| GoTimer.TimerEngine.GetJobs | timer/timer_engine.go:166-172 | a copy of the jobs in their order |
| GoGlobalState.EmptyDocuments | state/global_state.go:59-87 | every named map-valued collection of the company state, each empty |
| GoGlobalState.EmptyRecords | state/global_state.go:59-87 | every named list-valued collection of the company state, each empty |
| GoGlobalState.DefaultGlobalStateConfig | state/global_state.go:411-417 | the task, message and history limits are all 10000 |
| GoGlobalState.GlobalState.constructor | state/global_state.go:59-87 | every collection empty, version 0, the clock at the given time |
| GoGlobalState.GlobalState.GetAgentState | state/global_state.go:92-96 | found exactly when the name is stored, and then its state |
| GoGlobalState.GlobalState.SetAgentState | state/global_state.go:99-104 | the state is stored under the name, the version bumped, nothing else changed |
| GoGlobalState.GlobalState.UpdateAgentState | state/global_state.go:119-127 | an unknown name changes nothing, not even the version; otherwise the updater is applied and the version bumped |
| GoGlobalState.GlobalState.DeleteAgentState | state/global_state.go:130-135 | the name is gone and the version bumped, even when it was absent |
| GoGlobalState.GlobalState.CreateAgentState | state/global_state.go:138-146 | a fresh default agent state replaces any earlier one under the name; the version is bumped |
| GoGlobalState.GlobalState.AddTask | state/global_state.go:151-156 | the task is stored under its own ID, replacing an earlier one; the version is bumped |
| GoGlobalState.GlobalState.GetTask | state/global_state.go:159-163 | found exactly when the ID is stored, and then its task |
| GoGlobalState.GlobalState.UpdateTask | state/global_state.go:178-186 | an unknown ID changes nothing; otherwise the updater is applied and the version bumped |
| GoGlobalState.GlobalState.DeleteTask | state/global_state.go:189-194 | the ID is gone and the version bumped |
| GoGlobalState.GlobalState.AddMessage | state/global_state.go:199-204 | the message is appended and the version bumped |
| GoGlobalState.GlobalState.GetMessagesByReceiver | state/global_state.go:217-228 | exactly the messages addressed to the receiver, in arrival order |
| GoGlobalState.GlobalState.SetKPI | state/global_state.go:233-238 | the KPI is stored, the version bumped, and reading it back gives the value |
| GoGlobalState.GlobalState.GetKPI | state/global_state.go:241-245 | the stored value, or 0 for a missing key |
| GoGlobalState.GlobalState.SetSystemHealth | state/global_state.go:260-265 | the system-health entry is stored and the version bumped |
| GoGlobalState.GlobalState.AddExecutionHistory | state/global_state.go:282-286 | the entry is appended and the version is not bumped |
| GoGlobalState.GlobalState.GetExecutionHistoryByAgent | state/global_state.go:299-309 | the name is never consulted: the whole history comes back, in order |
| GoGlobalState.GlobalState.GetRecentExecutions | state/global_state.go:312-333 | none for a count of zero or less; otherwise the last min(count, total) entries, in order |
| GoGlobalState.GlobalState.UpdateCurrentTime | state/global_state.go:345-350 | the clock is set and the version bumped |
| GoGlobalState.GlobalState.ClearTasks | state/global_state.go:355-360 | the task map is emptied and the version bumped |
| GoGlobalState.GlobalState.ClearMessages | state/global_state.go:363-368 | the message list is emptied and the version bumped |
| GoGlobalState.GlobalState.ClearAll | state/global_state.go:370-400 | every collection emptied, the clock reset, the version bumped once and kept |
| GoGlobalState.GlobalState.Set | state/global_state.go:420-426 | writes the system-health map, bumps the version, never fails, and reading the key back gives the value |
| GoGlobalState.GlobalState.Get | state/global_state.go:429-437 | found exactly when the key is in the system-health map; a missing key is an error |
| GoGlobalState.GlobalState.AddPublicAnnouncement | state/global_state.go:458-462 | the announcement is appended and the version is not bumped |
| GoAgentState.FindId | state/agent_state.go:168-181 | the position of the first task with the ID, or the length when there is none |
| GoAgentState.Search | state/agent_state.go:169-171 | the scan stops at the first task with the ID |
| GoAgentState.NoneFound | state/agent_state.go:217-236 | both searches come up empty exactly when no current or completed task has the ID |
| GoAgentState.AgentState.constructor | state/agent_state.go:38-50 | empty task, message and history lists, no metrics, workload 0, room for three tasks |
| GoAgentState.AgentState.Restore | state/agent_state.go:15-35 | an agent state with the given fields |
| GoAgentState.AgentState.SetMaxTasks | state/agent_state.go:58-60 | only the task limit changes |
| GoAgentState.AgentState.SetLastActive | state/agent_state.go:154-156 | only the last-active time changes |
| GoAgentState.AgentState.AddExecutionHistory | state/agent_state.go:105-107 | the entry is appended, with no cap |
| GoAgentState.AgentState.GetExecutionHistoryByTaskID | state/agent_state.go:110-118 | exactly the entries recorded for the task, in recording order |
| GoAgentState.AgentState.GetExecutionHistoryByTimeRange | state/agent_state.go:121-129 | exactly the entries stamped strictly between the two times, in recording order |
| GoAgentState.AgentState.GetRecentExecutions | state/agent_state.go:132-151 | none for a count of zero or less; otherwise the last min(count, total) entries, in order |
| GoAgentState.AgentState.AddTask | state/agent_state.go:161-165 | the task is appended, the workload becomes the number of current tasks, and the total grows by one |
| GoAgentState.AgentState.CompleteTask | state/agent_state.go:168-181 | the first current task with the ID moves to the completed list and the workload is recounted; an unknown ID changes nothing; the total is kept |
| GoAgentState.AgentState.AddMessage | state/agent_state.go:183-186 | the message is appended and the agent marked active now |
| GoAgentState.AgentState.UpdateMetric | state/agent_state.go:189-192 | the metric is set and the last-active time reset to the zero time |
| GoAgentState.AgentState.GetTotalTasks | state/agent_state.go:197-209 | the total is the pending count plus the completed count |
| GoAgentState.AgentState.GetTaskByID | state/agent_state.go:217-231 | current tasks are searched before completed ones; the result has the ID; nil exactly when neither list has it |
| GoAgentState.AgentState.HasTask | state/agent_state.go:234-236 | true exactly when a current or completed task has the ID |
| GoAgentState.AgentState.ClearCompleted | state/agent_state.go:239-241 | only the completed list is emptied |
| GoAgentState.AgentState.ClearCurrent | state/agent_state.go:244-247 | the current list is emptied and the workload reset |
| GoAgentState.AgentState.ClearAll | state/agent_state.go:250-254 | both task lists emptied and the workload reset; messages, metrics and history kept |
| GoHistory.FindExecution | agents/agent_base.go:309-314 | the position of the first entry with the execution ID, or the length when there is none |
| GoHistory.ScanExecution | agents/base_agent.go:793-798 | the scan of the history stops at the first entry with the execution ID |
| GoHistory.UpsertedSpec | agents/base_agent.go:790-801 | the entry ends up in the history; it replaces the entry with its ID, or is appended when there is none; other entries keep their place; unique IDs stay unique; repeating the update changes nothing |
| GoHistory.AddThenUpdate | agents/base_agent.go:512-519 | adding an entry under a fresh execution ID and then updating it replaces that last entry and nothing else |
| GoHistory.Count | agents/agent_base.go:675-684 | the entries with a given status are at most all entries |
| GoHistory.TallyOf | agents/agent_base.go:658-696 | the counting loop yields the success, failed and timeout counts, the summed duration and the latest timestamp |
| GoHistory.CountsBounded | agents/agent_base.go:675-684 | no entry is counted under two statuses, so the counts add up to at most the number of entries |
| GoHistory.LatestIsMax | agents/agent_base.go:686-689 | the latest timestamp is at least every entry's, and is one of them unless it is the zero time |
| GoHistory.Quot | agents/agent_base.go:692 | Go's duration division, truncating toward zero |
| GoHistory.AverageBounded | agents/agent_base.go:691-694 | the average duration of a non-empty history lies between 0 and the largest duration bound |
| GoBaseAgent.AfterLine | agents/base_agent.go:899-902 | the position past the line break after the fence opener, never before it and never past the text |
| GoBaseAgent.TrimLeftSnoc | agents/base_agent.go:893-906 | trimming leading space from a text with one more character keeps that character unless everything before it was space |
| GoBaseAgent.TrimLeftCons | agents/base_agent.go:893-906 | a leading line break does not survive trimming |
| GoBaseAgent.TrimRightSnoc | agents/base_agent.go:893-906 | a trailing line break does not survive trimming |
| GoBaseAgent.TrimAround | agents/base_agent.go:893-906 | line breaks around a body do not survive trimming |
| GoBaseAgent.IndexAtStart | agents/base_agent.go:890-910 | the first occurrence of a pattern the text starts with is at position 0 |
| GoBaseAgent.ClosingFence | agents/base_agent.go:892 | in a fenced body without fences of its own, the closing fence is found right after the body's trailing line break |
| GoBaseAgent.FencedClosed | agents/base_agent.go:890-896 | a ```json fence around a fence-free body is closed, and its content is the trimmed body with its line breaks |
| GoBaseAgent.ExtractFencedJson | agents/base_agent.go:888-896 | wrapping a fence-free body in a ```json fence and extracting gives the trimmed body back |
| GoBaseAgent.NoFenceNoJsonFence | agents/base_agent.go:890-897 | text without a fence has no ```json fence either |
| GoBaseAgent.ExtractUnfenced | agents/base_agent.go:907-916 | without fences the result is the whole text, or a span of it that opens with '[' and closes with ']' |
| GoBaseAgent.ExtractBareArray | agents/base_agent.go:907-916 | a bare JSON array without fences passes through unchanged |
| GoBaseAgent.LlmTasksCount | agents/base_agent.go:861-866 | one task per decoded entry with a title, so at most one per entry |
| GoBaseAgent.LlmTasksComplete | agents/base_agent.go:861-883 | every entry with a title gives a task |
| GoBaseAgent.LlmTasksSound | agents/base_agent.go:861-883 | every task comes from a titled entry and is pending, assigned to and by the agent, marked as LLM-generated, and has a priority (Medium when the entry gave none) |
| GoBaseAgent.LlmTasksSnoc | agents/base_agent.go:861-883 | one more entry adds its task exactly when it has a title |
| GoBaseAgent.BaseAgent.constructor | agents/base_agent.go:158-177 | empty task, message and history lists, workload 0, not running, no global state |
| GoBaseAgent.BaseAgent.SetGlobalState | agents/base_agent.go:568-572 | only the global state reference changes |
| GoBaseAgent.BaseAgent.SetOnTaskComplete | agents/base_agent.go:189-193 | only whether a completion callback is set changes |
| GoBaseAgent.BaseAgent.Start | agents/base_agent.go:605-625 | starting a running agent is an error and changes nothing; otherwise it is running |
| GoBaseAgent.BaseAgent.Stop | agents/base_agent.go:627-638 | never an error; afterwards the agent is not running and nothing else changed |
| GoBaseAgent.BaseAgent.ReceiveMessage | agents/base_agent.go:589-602 | a nil message or a full mailbox is an error and nothing is recorded; otherwise the message, readdressed to the agent, goes to the inbox and the message list and the agent is marked active |
| GoBaseAgent.BaseAgent.AddExecutionHistory | agents/base_agent.go:512-519 | the entry is appended, dropping the oldest when the history is full, so it never exceeds 10000 |
| GoBaseAgent.BaseAgent.UpdateExecutionHistory | agents/base_agent.go:790-801 | the entry replaces the first with its execution ID, or is appended |
| GoBaseAgent.BaseAgent.GetExecutionHistory | agents/base_agent.go:503-509 | a copy of the history in order |
| GoBaseAgent.BaseAgent.GetExecutionHistoryByTaskID | agents/base_agent.go:522-532 | exactly the entries recorded for the task, in recording order |
| GoBaseAgent.BaseAgent.GetExecutionHistoryByTimeRange | agents/base_agent.go:535-545 | exactly the entries stamped strictly between the two times, in recording order |
| GoBaseAgent.BaseAgent.GetRecentExecutions | agents/base_agent.go:548-565 | none for a count of zero or less; otherwise the last min(count, total) entries, in order |
| GoBaseAgent.BaseAgent.GetExecutionStats | agents/base_agent.go:648-675 | the total, success and failed counts, which never exceed the total; for a non-empty history the truncated mean duration and the latest timestamp |
| GoBaseAgent.BaseAgent.ParseLLMTasks | agents/base_agent.go:851-886 | text that does not decode is an error; otherwise the titled entries become the agent's tasks, in order |
| GoBaseAgent.BaseAgent.BuildTasks | agents/base_agent.go:861-883 | the loop over the decoded entries builds exactly the tasks of the titled entries |
| GoBaseAgent.BaseAgent.GenerateTasks | agents/base_agent.go:803-842 | a failed LLM call is an error; an empty reply or one that does not decode gives no tasks; otherwise the parsed tasks |
| GoBaseAgent.BaseAgent.TakeTask | agents/base_agent.go:358-363 | the copy joins the current tasks, the workload is recounted and the agent marked active |
| GoBaseAgent.BaseAgent.Settle | agents/base_agent.go:403-431 | a failure only recounts the workload; a success completes the task and drops the first current task with its ID |
| GoBaseAgent.BaseAgent.Run | agents/base_agent.go:381-446 | after the execution ID is made: the agent settles the outcome, the run's entry ends in its final form, the callback hears of it, and the task's error is returned |
| GoBaseAgent.BaseAgent.Record | agents/base_agent.go:395-433 | the started entry is added and, being the same record the run fills in, ends as the final entry |
| GoBaseAgent.BaseAgent.FillLast | agents/base_agent.go:387-407 | the last history entry becomes the finished one |
| GoBaseAgent.BaseAgent.Publish | agents/base_agent.go:366-371 | the global state's task is marked assigned to the agent, then given the outcome, each update bumping the version; an unknown task is untouched |
| GoBaseAgent.BaseAgent.ProcessTask | agents/base_agent.go:340-446 | a stopped agent refuses the task and changes nothing; otherwise the task is taken, marked in the global state, run, recorded and settled, and the task's error is returned |
| GoBaseAgent.BaseAgent.Accept | agents/base_agent.go:354-446 | past the running check: without an execution ID the call fails after taking and marking the task; otherwise it runs as ProcessTask says |
| GoBaseAgent.BoundedLast | agents/base_agent.go:512-519 | overwriting the entry just appended is the same as appending the new one |
| GoBaseAgent.ProcessedValid | agents/base_agent.go:358-431 | every outcome keeps the workload equal to the number of current tasks and leaves name, running flag and messages alone |
| GoBaseAgent.ProcessedSuccess | agents/base_agent.go:415-431 | a success under a fresh execution ID of a task not already current leaves the current tasks as they were, completes the task, and appends exactly its final entry |
| GoBaseAgent.ProcessedFailure | agents/base_agent.go:403-414 | a failure leaves the task among the current ones for good, completes nothing, and records the error in the final entry; `executeTask` (agents/base_agent.go:449-474) always returns nil, so as written this branch is never taken |
| GoBaseAgent.FreshEntry | agents/base_agent.go:790-801 | an entry under a fresh execution ID, once appended, is updated in place |
| GoBaseAgent.GlobalOutcome | agents/base_agent.go:366-431 | the global state ends with the task assigned to the agent and assigned, completed or failed as the run went; no other task changes |
| GoBaseAgent.SuccessRestoresCurrent | agents/base_agent.go:417-422 | a task not already current leaves the current tasks as they were once it succeeds |
| GoBaseAgent.SuccessRemovesEarlierCopy | agents/base_agent.go:417-422 | when a task with the same ID was already current, success removes that earlier copy and leaves the new one behind |
| GoAgentBase.GetStringFromMap | agents/agent_base.go:322-329 | the string stored under the key, or "" when the key is missing or holds another type |
| GoAgentBase.FindTask | agents/agent_base.go:368-373 | the position of the first task with the ID, or the length when there is none |
| GoAgentBase.ScanTask | agents/agent_base.go:368-373 | the scan of the current tasks stops at the first task with the ID |
| GoAgentBase.WithoutTaskSpec | agents/agent_base.go:368-373 | with a current task of that ID exactly one task leaves, the first with it, and the others keep their order; without one nothing changes |
| GoAgentBase.BaseAgent.constructor | agents/agent_base.go:79-116 | named after its role, empty task, message and history lists, workload 0, not running |
| GoAgentBase.BaseAgent.HandleTaskAssignment | agents/agent_base.go:273-300 | never an error; content without a string "task_id" is ignored; otherwise the described task joins the current tasks and the workload is recounted |
| GoAgentBase.AssignedTaskSpec | agents/agent_base.go:279-298 | the assigned task takes its ID, title and description from the content ("" when missing), is assigned by the sender to the role, and ends in progress |
| GoAgentBase.BaseAgent.CompleteTask | agents/agent_base.go:364-375 | the task joins the completed ones whether or not it was current; the first current task with its ID leaves; the workload is recounted |
| GoAgentBase.CompleteUnknown | agents/agent_base.go:364-375 | completing a task that is not current leaves the current tasks as they were |
| GoAgentBase.CompleteKnown | agents/agent_base.go:368-373 | completing a current task removes exactly the first task with its ID |
| GoAgentBase.BaseAgent.AddExecutionHistory | agents/agent_base.go:591-602 | the entry is appended, dropping the oldest when the history is full, so it never exceeds 10000 |
| GoAgentBase.BaseAgent.UpdateExecutionHistory | agents/agent_base.go:305-319 | the entry replaces the first with its execution ID, or is appended |
| GoAgentBase.BaseAgent.GetExecutionHistory | agents/agent_base.go:399-407 | a copy of the history in order |
| GoAgentBase.BaseAgent.GetExecutionHistoryByTaskID | agents/agent_base.go:605-616 | exactly the entries recorded for the task, in recording order |
| GoAgentBase.BaseAgent.GetExecutionHistoryByTimeRange | agents/agent_base.go:619-630 | exactly the entries stamped strictly between the two times, in recording order |
| GoAgentBase.BaseAgent.GetRecentExecutions | agents/agent_base.go:633-655 | none for a count of zero or less; otherwise the last min(count, total) entries, in order |
| GoAgentBase.BaseAgent.GetExecutionStats | agents/agent_base.go:658-696 | the total and the success, failed and timeout counts; for a non-empty history the truncated mean duration and the latest timestamp, otherwise zero values |
| GoAgentBase.BaseAgent.ReceiveMessage | agents/agent_base.go:410-431 | a nil message or a full mailbox is an error and nothing is recorded; otherwise the message, readdressed to the role, goes to the inbox and the message list and the agent is marked active |
| GoAgentBase.BaseAgent.Start | agents/agent_base.go:434-450 | starting a running agent is an error and changes nothing; otherwise it is running |
| GoAgentBase.BaseAgent.Stop | agents/agent_base.go:453-466 | never an error; afterwards the agent is not running and nothing else changed |
| GoMailboxBus.Mailbox.constructor | mailbox/mailbox.go:40-49 | a mailbox for the receiver with an empty inbox and an empty archive |
| GoMailboxBus.Mailbox.Deliver | mailbox/mailbox_bus.go:87 | the message is appended to the inbox; receiver and archive unchanged |
| GoMailboxBus.Mailbox.ArchiveMessage | mailbox/mailbox.go:77-86 | the message is appended and the oldest entry dropped once there are more than 1000, so the archive never exceeds 1000 |
| GoMailboxBus.MailboxBus.constructor | mailbox/mailbox_bus.go:31-47 | no mailboxes and a fresh, empty global state |
| GoMailboxBus.MailboxBus.RegisterMailbox | mailbox/mailbox_bus.go:50-61 | a role already registered is refused with an error and keeps its mailbox; a new role is registered |
| GoMailboxBus.MailboxBus.GetMailbox | mailbox/mailbox_bus.go:64-74 | found exactly when the role is registered, and then its mailbox; otherwise an error |
| GoMailboxBus.MailboxBus.Send | mailbox/mailbox_bus.go:77-89 | a nil message or an unregistered receiver is an error; otherwise the message is appended to the receiver's inbox, whose receiver and archive stay as they were, and no other mailbox changes |
| GoMailboxBus.MailboxBus.ShareState | mailbox/mailbox_bus.go:106-108 | the value is published in the global state, and reading the key back gives it |
| GoMailboxBus.MailboxBus.GetSharedState | mailbox/mailbox_bus.go:111-113 | found exactly when the key was published, and then its value; otherwise an error |

## Left out

- Language-model calls (`ChatOpenAI.ainvoke`/`invoke` in the Python role agents, `agent.Run` and `llmModel.Generate` in agents/base_agent.go) are oracles: a parameter carrying the parsed reply or the failure. The prompt texts, `generate_report`, `execute_task` and the other handlers whose result is only the model's reply are not modelled.
- `_evaluate_performance` and `_resolve_conflicts` (src/agents/hr.py:378-559), `_update_roadmap` (src/agents/cpo.py:739-748) and the `_handle_data_response` of the data analyst, customer support and operations agents only store the language model's answer or whole message contents; they are not modelled.
- The operations agent keeps its `task_queue` as a field that the system report reads; the handlers that append to it and report it (src/agents/operations.py:85-256) are not modelled.
- `_distribute_workload` (src/workflow/delegate.py:65-74) is not modelled: nothing in the core calls it.
- Concurrency: goroutine loops (`messageProcessingLoop`, `taskGenerationLoop`, `scheduleLoop`, `tickLoop`), channels, `sync.RWMutex` and `asyncio.Lock`. Every operation is atomic and sequential, and `AutoScheduler.Start`/`Stop` and the timer engine's ticker are not modelled; one tick is one call of `checkAndFire` or `dispatchTasks`.
- The Mailbox inbox is a sequence; whether `PushInbox` got a message in before its timeout is the parameter `delivered`.
- File access: whether the state file exists and the JSON document read from it are parameters of `load_state`; the text encoding of JSON and a partial write left behind by a failing `json.dump` are not modelled.
- Wall clocks are integer ticks, `format_timestamp` and `parse_datetime` are the decimal text of a tick and its parser, and UUIDs are inputs; Go task IDs are `GoTask.GenerateTaskID` of the tick.
- Scores and weights are Dafny `real`s; floating-point rounding is not modelled. `round(x, 2)` rounds the exact value to the nearest cent, ties to even.
- WorkflowQueue.PriorityQueue.Pop: the binary-heap layout of `self._heap` is replaced by the queued items in arrival order, so the model promises an item that no other queued item precedes rather than the exact item `heapq` returns when two items tie; with distinct `created_at` stamps these agree.
- WorkflowQueue.PriorityQueue.Push: with a duplicate task id the heap and the index disagree and a later pop raises KeyError; the model states the consistency invariant only for pushes of fresh ids.
- GoAutoScheduler.AutoScheduler.DequeueIf: `TaskQueue` defines no `DequeueIf`, which scheduler/auto_scheduler.go:209 calls; the model takes out the first queued task that satisfies the predicate.
- GoScheduleTimer.TimerEngine.RegisterJob: the callback of a schedule entry is not kept, since a Go function value has no model here.
- The Go role agents (agents/ceo.go and the other role files), config loading, the database, HTTP server, `main.go`/`main.py`, the LLM and registry setup and the tool wrappers are not part of this model.
- The Go packages disagree with each other (two `Agent` types, `*types.Task` against `*ds.Task`); each Go file is modelled against its own declarations.
- StateManager.ToFloat: text with surrounding whitespace, digit-group underscores, `inf`/`nan`/`infinity` or non-ASCII digits is refused, though Python's `float` accepts it.
- Strings.Lower: only ASCII capitals are lower-cased; the non-ASCII case mapping of `str.lower` (the Kelvin sign to "k", "İ" to two characters) is not modelled, so such titles miss the keyword dispatch.
- Cpo.HandleApprovalRequest: the backlog slice dumped beside the feedback is not a parameter, since the backlog is never filled (src/agents/cpo.py:48) and an empty list always encodes. A dict roadmap raises TypeError on slicing in the Python versions before 3.12 and KeyError from 3.12 on; the model gives TypeError.
- Ceo.HandleApprovalRequest: the strategic goals and the resource assessment dumped beside the request (src/agents/ceo.py:175-177) are not parameters. The goals are an empty dict or a parsed JSON reply (src/agents/ceo.py:50, 356) and always encode; the assessment reads the company's KPIs (src/agents/ceo.py:510-521), so KPIs that are not a dict, or a budget, tech_capacity or market_share value JSON cannot encode, raise there, which the model does not capture.
- Cfo.DepartmentBudgets: the budget-planning handler replaces `budget_allocation` with the language model's plan (src/agents/cfo.py:557-559); that handler is not modelled, so the rules always read the initial table.
- Cmo.CmoAgent.CampaignMetrics: `total_campaigns` is raised only by the campaign-planning handler (src/agents/cmo.py:465), which returns the language model's plan and is not modelled, so it stays 0.
- Py.Lookup: dict keys and list items compare structurally, so `1`, `1.0` and `True`, which Python treats as the same key, are three different keys here.
- Rd.ParseTask: a task_id or description that is not text is kept as its printed text (`Show`), while the Python dataclass stores the object itself.
- GoTimer.TimerEngine.GetJobs, GoBaseAgent.BaseAgent.ReceiveMessage, GoAgentBase.BaseAgent.ReceiveMessage: jobs and messages are values, so the sharing of `*TimerJob` and `*Message` pointers with the caller is not modelled: a caller does not see later updates made through the engine's jobs, and the readdressing of the message (agents/base_agent.go:593) does not reach the caller's copy.
- GoMailboxBus.Mailbox.Deliver: `Mailbox` defines no `Send`, which mailbox/mailbox_bus.go:87 calls; the model appends the message to the inbox and the delivery always succeeds, without the five-second timeout of `PushInbox` (mailbox/mailbox.go:52-65).
- GoTaskGenerator.SameIds, GoTimer.FiredTasks: one clock reading `now` serves a whole `GenerateTasks` call or timer tick, while the Go code calls `GenerateTaskID()` once per task (scheduler/task_generator.go:45, timer/timer_engine.go:135) with a resolution of one second; tasks built on either side of a second boundary get different IDs, which the model does not capture, so a shared ID is promised only for a call or tick that reads the clock once.
- Delegate.DelegateTask: the base `Task` (src/agents/base.py:98-114) has no `required_capabilities` or `estimated_workload` field, so src/agents/delegate.py:29 and :57 raise AttributeError on it; the model gives the task both fields, as the delegation design intends, and does not capture that AttributeError.
- Py.Unhashable: a set and any other value the model folds into `POther` count as hashable, and so does an instance of a dataclass declared with `eq=True` (whose `__hash__` is None), since `PObject` does not record it; Python raises TypeError when such a value is used as a dict key.
- The routing helpers at src/agents/router.py:205-268 read an agent registry that is always empty and are not modelled.

## Findings

| source | as written | input that shows it | evidently intended | confidence | as-written member | corrected member |
|---|---|---|---|---|---|---|
| src/agents/state_manager.py:255-262 | `convert_to_serializable` turns each enum member of a message into its attribute dict, and the reader then finds no role value for the sender and skips the message | a company with one message from the CEO, saved and reloaded | messages are written with the enums' `.value` strings and come back on reload | not executed | StateManager.ReloadDropsMessages | StateManager.FixedReload |
| src/agents/state_manager.py:109-121 | the agents dict keeps its `AgentRole` keys, which `json.dump` refuses with TypeError | saving a company that has any agent state | agent states are filed under the role's value string | not executed | StateManager.SaveRejectsAgents | StateManager.FixedDocumentJson |
| src/agents/hr.py:885 | the alignment score, which is only ever 0.5 or 0.8, is compared with 70 | any resource-allocation request, e.g. a positive budget in a company with strategic goals | approval when the score reaches the 0.7 threshold on its own scale | not executed | Hr.ResourceNeverApproved | Hr.ResourceApprovedIff |
| src/agents/data_analyst.py:154 | the coroutine `_analyze_anomaly(...)` is placed in the message without `await`, so no analysis is ever forwarded | a critical alert | the forwarded alert carries the analysis dict | not executed | DataAnalyst.AnalysisNeverAwaited | DataAnalyst.AnalysisNamesSeverity |
| src/agents/cfo.py:990 | the severity divides the overrun by the budget even when the budget is 0 | a budget-overrun alert with no department, whose budget reads as 0 | the severity uses the same guard as the percentage | not executed | Cfo.MissingDepartmentRaises | Cfo.MissingDepartmentMedium |
| src/agents/rd.py:620-631 | `create_message` is called with `severity=`, a keyword src/agents/base.py:274-280 does not accept, so the call raises TypeError | a feature implementation that fails | a high-priority alert to the CTO | not executed | Rd.FailureAlertNeverSent | Rd.FailureAlert |
| src/agents/rd.py:782-806 | both escalations to the CTO pass `severity=` to `create_message`, which raises TypeError | a deployment_failure alert | a critical alert to the CTO naming the deployment issue | not executed | Rd.EscalationsNeverSent | Rd.HandleAlert |
