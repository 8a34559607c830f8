// src/agents/state_manager.py: the in-memory company snapshot, its update
// rules, and its conversion to and from the JSON document on disk. File
// access is replaced by the decoded document (`data`) and a flag saying
// whether the file exists; `datetime.now()` is the tick `now`.
module StateManager {
  import opened Wrappers
  import opened Py
  import opened Base
  import Clock
  import Utils

  /**
   * The `CompanyState` dict. The nine keys the snapshot reads and writes are
   * fields; the other default keys are kept, in order, in `extras`. Values
   * read back from a document are whatever the document held, hence `Obj`.
   */
  datatype Company = Company(
    agents: Entries, tasks: Entries, messages: seq<Obj>, currentTime: nat,
    strategicGoals: Obj, kpis: Obj, marketData: Obj, userFeedback: Obj, systemHealth: Obj,
    extras: seq<(string, Obj)>)

  /** The default keys that serialisation does not write. */
  const ExtraDefaults: seq<(string, Obj)> := [
    ("budget_allocation", PDict([])), ("financial_metrics", PDict([])), ("campaign_metrics", PDict([])),
    ("product_backlog", PList([])), ("technical_debt", PList([])), ("campaign_data", PDict([])),
    ("brand_data", PDict([])), ("industry_reports", PDict([])), ("historical_cashflow", PDict([])),
    ("competitor_data", PDict([])), ("customer_data", PDict([])), ("product_data", PDict([])),
    ("business_metrics", PDict([])), ("historical_financials", PDict([]))]

  /** `_get_default_state`: empty collections everywhere, the clock at `now`. */
  function DefaultState(now: nat): (s: Company)
    ensures s.agents == [] && s.tasks == [] && s.messages == [] && s.currentTime == now
    ensures s.kpis == PDict([]) && s.userFeedback == PList([]) && s.systemHealth == PDict([])
  {
    Company([], [], [], now, PDict([]), PDict([]), PDict([]), PList([]), PDict([]), ExtraDefaults)
  }

  function TextStamp(now: nat): Obj
  {
    PStr(Clock.Format(now))
  }

  /** The entry `update_agent_state` creates for a role it has not seen. */
  function NewAgentEntry(role: Role, now: nat): Entries
  {
    StrDict([("role", PStr(RoleValue(role))), ("current_tasks", PList([])), ("completed_tasks", PList([])),
             ("messages", PList([])), ("performance_metrics", PDict([])), ("capabilities", PList([])),
             ("workload", PFloat(0.0)), ("last_active", TextStamp(now))])
  }

  /** `[t if isinstance(t, dict) else convert_to_serializable(t) for t in xs]`. */
  function TaskList(xs: Obj): (r: Result<seq<Obj>, PyError>)
    ensures r.Err? <==> Iterate(xs).Err?
    ensures r.Ok? ==> |r.value| == |Iterate(xs).value|
    ensures r.Ok? ==> forall i :: 0 <= i < |r.value| ==>
      r.value[i] == if Iterate(xs).value[i].PDict? then Iterate(xs).value[i] else Utils.Convert(Iterate(xs).value[i])
  {
    match Iterate(xs)
    case Err(e) => Err(e)
    case Ok(ts) => Ok(seq(|ts|, i requires 0 <= i < |ts| => if ts[i].PDict? then ts[i] else Utils.Convert(ts[i])))
  }

  /**
   * `float(x)`: a number gives its value, numeric text is read, other text
   * is a ValueError, and None, containers and objects are a TypeError.
   */
  function ToFloat(x: Obj): (r: Result<real, PyError>)
    ensures NumberOf(x).Some? ==> r == Ok(NumberOf(x).value)
    ensures x.PStr? ==> (r.Ok? <==> FloatText(x.s).Some?) && (r.Ok? ==> r.value == FloatText(x.s).value)
    ensures x.PStr? && r.Err? ==> r.error == ValueError
    ensures NumberOf(x).None? && !x.PStr? ==> r == Err(TypeError)
  {
    match NumberOf(x)
    case Some(v) => Ok(v)
    case None =>
      if !x.PStr? then Err(TypeError)
      else match FloatText(x.s) case None => Err(ValueError) case Some(v) => Ok(v)
  }

  /** A workload sent as text, such as "0.5", is stored as its number. */
  lemma ToFloatText()
    ensures ToFloat(PStr("0.5")) == Ok(0.5)
    ensures ToFloat(PStr("high")) == Err(ValueError)
  {
    FloatTextPoint();
    FloatTextRefused();
  }

  /** One task-list field: replaced by the converted list when `updates` has it. */
  function ReplaceList(a: Entries, updates: Entries, key: string): (r: Result<Entries, PyError>)
    ensures r.Err? <==> HasKey(updates, PStr(key)) && Iterate(GetS(updates, key, PNone)).Err?
  {
    if !HasKey(updates, PStr(key)) then Ok(a)
    else match TaskList(GetS(updates, key, PNone))
      case Err(e) => Err(e)
      case Ok(l) => Ok(SetItem(a, PStr(key), PList(l)))
  }

  /** The stored metrics and the update are both dicts. */
  predicate MetricsMergeable(a: Entries, updates: Entries)
  {
    Lookup(a, PStr("performance_metrics")).Some? && Lookup(a, PStr("performance_metrics")).value.PDict?
    && GetS(updates, "performance_metrics", PNone).PDict?
  }

  /** `agent_state["performance_metrics"].update(...)`: a missing field is a KeyError, a non-dict one has no `update`. */
  function MergeMetrics(a: Entries, updates: Entries): (r: Result<Entries, PyError>)
    ensures r.Ok? <==> (!HasKey(updates, PStr("performance_metrics")) || MetricsMergeable(a, updates))
  {
    if !HasKey(updates, PStr("performance_metrics")) then Ok(a)
    else match Lookup(a, PStr("performance_metrics"))
      case None => Err(KeyError)
      case Some(m) =>
        var x := GetS(updates, "performance_metrics", PNone);
        if !m.PDict? then Err(AttributeError)
        else if !x.PDict? then Err(TypeError)
        else Ok(SetItem(a, PStr("performance_metrics"), PDict(Update(m.entries, x.entries))))
  }

  function ReplaceCapabilities(a: Entries, updates: Entries): Entries
  {
    if HasKey(updates, PStr("capabilities")) then SetItem(a, PStr("capabilities"), GetS(updates, "capabilities", PNone)) else a
  }

  function SetWorkload(a: Entries, updates: Entries): (r: Result<Entries, PyError>)
    ensures r.Err? <==> HasKey(updates, PStr("workload")) && ToFloat(GetS(updates, "workload", PNone)).Err?
  {
    if !HasKey(updates, PStr("workload")) then Ok(a)
    else match ToFloat(GetS(updates, "workload", PNone))
      case Err(e) => Err(e)
      case Ok(w) => Ok(SetItem(a, PStr("workload"), PFloat(w)))
  }

  // Each step writes its own key when `updates` has it and leaves every other key alone.

  lemma ReplaceListKeeps(a: Entries, updates: Entries, key: string, k: Obj)
    requires ReplaceList(a, updates, key).Ok?
    requires k != PStr(key) || !HasKey(updates, PStr(key))
    ensures Lookup(ReplaceList(a, updates, key).value, k) == Lookup(a, k)
  {
  }

  lemma ReplaceListWrites(a: Entries, updates: Entries, key: string)
    requires ReplaceList(a, updates, key).Ok? && HasKey(updates, PStr(key))
    ensures Lookup(ReplaceList(a, updates, key).value, PStr(key)) == Some(PList(TaskList(GetS(updates, key, PNone)).value))
  {
  }

  lemma MergeMetricsKeeps(a: Entries, updates: Entries, k: Obj)
    requires MergeMetrics(a, updates).Ok?
    requires k != PStr("performance_metrics") || !HasKey(updates, PStr("performance_metrics"))
    ensures Lookup(MergeMetrics(a, updates).value, k) == Lookup(a, k)
  {
  }

  lemma MergeMetricsWrites(a: Entries, updates: Entries)
    requires MergeMetrics(a, updates).Ok? && HasKey(updates, PStr("performance_metrics"))
    ensures Lookup(MergeMetrics(a, updates).value, PStr("performance_metrics")) ==
      Some(PDict(Update(Lookup(a, PStr("performance_metrics")).value.entries, GetS(updates, "performance_metrics", PNone).entries)))
  {
  }

  lemma CapabilitiesKeeps(a: Entries, updates: Entries, k: Obj)
    requires k != PStr("capabilities") || !HasKey(updates, PStr("capabilities"))
    ensures Lookup(ReplaceCapabilities(a, updates), k) == Lookup(a, k)
  {
  }

  lemma WorkloadKeeps(a: Entries, updates: Entries, k: Obj)
    requires SetWorkload(a, updates).Ok?
    requires k != PStr("workload") || !HasKey(updates, PStr("workload"))
    ensures Lookup(SetWorkload(a, updates).value, k) == Lookup(a, k)
  {
  }

  lemma WorkloadWrites(a: Entries, updates: Entries)
    requires SetWorkload(a, updates).Ok? && HasKey(updates, PStr("workload"))
    ensures Lookup(SetWorkload(a, updates).value, PStr("workload")) == Some(PFloat(ToFloat(GetS(updates, "workload", PNone)).value))
  {
  }

  /**
   * The field updates of `update_agent_state`, applied one after another to the
   * agent's dict. The dict is changed in place, so when a step raises, the steps
   * before it stay applied: the result is the dict as left and the exception.
   * A non-dict entry rejects the first item assignment with TypeError.
   */
  function ApplyAgentUpdates(agent: Obj, updates: Entries, now: nat): (r: (Obj, Option<PyError>))
  {
    if !agent.PDict? then (agent, Some(TypeError))
    else
      var a0 := agent.entries;
      match ReplaceList(a0, updates, "current_tasks")
      case Err(e) => (PDict(a0), Some(e))
      case Ok(a1) =>
        match ReplaceList(a1, updates, "completed_tasks")
        case Err(e) => (PDict(a1), Some(e))
        case Ok(a2) =>
          match MergeMetrics(a2, updates)
          case Err(e) => (PDict(a2), Some(e))
          case Ok(a3) =>
            var a4 := ReplaceCapabilities(a3, updates);
            match SetWorkload(a4, updates)
            case Err(e) => (PDict(a4), Some(e))
            case Ok(a5) => (PDict(SetItem(a5, PStr("last_active"), TextStamp(now))), None)
  }

  /** Updates whose values have the types the fields expect, applied to an entry whose metrics field is a dict. */
  predicate WellTypedUpdates(agent: Entries, updates: Entries)
  {
    (HasKey(updates, PStr("current_tasks")) ==> Iterate(GetS(updates, "current_tasks", PNone)).Ok?)
    && (HasKey(updates, PStr("completed_tasks")) ==> Iterate(GetS(updates, "completed_tasks", PNone)).Ok?)
    && (HasKey(updates, PStr("performance_metrics")) ==> MetricsMergeable(agent, updates))
    && (HasKey(updates, PStr("workload")) ==> ToFloat(GetS(updates, "workload", PNone)).Ok?)
  }

  /** The dict after the two task-list steps. */
  function ListSteps(agent: Entries, updates: Entries): (r: Entries)
    requires WellTypedUpdates(agent, updates)
    ensures Lookup(r, PStr("performance_metrics")) == Lookup(agent, PStr("performance_metrics"))
  {
    var a1 := ReplaceList(agent, updates, "current_tasks").value;
    ReplaceListKeeps(agent, updates, "current_tasks", PStr("performance_metrics"));
    ReplaceListKeeps(a1, updates, "completed_tasks", PStr("performance_metrics"));
    ReplaceList(a1, updates, "completed_tasks").value
  }

  /** The dict after the five field steps, before last_active is stamped. */
  function FieldSteps(agent: Entries, updates: Entries): Entries
    requires WellTypedUpdates(agent, updates)
  {
    SetWorkload(ReplaceCapabilities(MergeMetrics(ListSteps(agent, updates), updates).value, updates), updates).value
  }

  /** A well-typed update raises nothing and stamps last_active on top of the field steps. */
  lemma AgentUpdateSucceeds(agent: Entries, updates: Entries, now: nat)
    requires WellTypedUpdates(agent, updates)
    ensures ApplyAgentUpdates(PDict(agent), updates, now) == (PDict(SetItem(FieldSteps(agent, updates), PStr("last_active"), TextStamp(now))), None)
  {
    var a2 := ListSteps(agent, updates);
  }

  /** An ill-typed update raises: a list field that is not iterable, metrics that cannot be merged, a workload `float()` refuses. */
  lemma AgentUpdateFails(agent: Entries, updates: Entries, now: nat)
    requires !WellTypedUpdates(agent, updates)
    ensures ApplyAgentUpdates(PDict(agent), updates, now).1.Some?
  {
    var a1 := ReplaceList(agent, updates, "current_tasks");
    if a1.Ok? {
      ReplaceListKeeps(agent, updates, "current_tasks", PStr("performance_metrics"));
      var a2 := ReplaceList(a1.value, updates, "completed_tasks");
      if a2.Ok? {
        ReplaceListKeeps(a1.value, updates, "completed_tasks", PStr("performance_metrics"));
      }
    }
  }

  /** The partner of the two lemmas above: an update raises exactly when it is ill-typed. */
  lemma AgentUpdateRaises(agent: Entries, updates: Entries, now: nat)
    ensures ApplyAgentUpdates(PDict(agent), updates, now).1.Some? <==> !WellTypedUpdates(agent, updates)
  {
    if WellTypedUpdates(agent, updates) {
      AgentUpdateSucceeds(agent, updates, now);
    } else {
      AgentUpdateFails(agent, updates, now);
    }
  }

  /** Key `k` is not one that `update_agent_state` writes for these updates. */
  predicate Untouched(updates: Entries, k: Obj)
  {
    k != PStr("last_active")
    && (k == PStr("current_tasks") ==> !HasKey(updates, k))
    && (k == PStr("completed_tasks") ==> !HasKey(updates, k))
    && (k == PStr("performance_metrics") ==> !HasKey(updates, k))
    && (k == PStr("capabilities") ==> !HasKey(updates, k))
    && (k == PStr("workload") ==> !HasKey(updates, k))
  }

  lemma ListStepsKeep(agent: Entries, updates: Entries, k: Obj)
    requires WellTypedUpdates(agent, updates)
    requires Untouched(updates, k)
    ensures Lookup(ListSteps(agent, updates), k) == Lookup(agent, k)
  {
    var a1 := ReplaceList(agent, updates, "current_tasks").value;
    ReplaceListKeeps(agent, updates, "current_tasks", k);
    ReplaceListKeeps(a1, updates, "completed_tasks", k);
  }

  lemma FieldStepsKeep(agent: Entries, updates: Entries, k: Obj)
    requires WellTypedUpdates(agent, updates)
    requires Untouched(updates, k)
    ensures Lookup(FieldSteps(agent, updates), k) == Lookup(agent, k)
  {
    var a2 := ListSteps(agent, updates);
    var a3 := MergeMetrics(a2, updates).value;
    var a4 := ReplaceCapabilities(a3, updates);
    ListStepsKeep(agent, updates, k);
    MergeMetricsKeeps(a2, updates, k);
    CapabilitiesKeeps(a3, updates, k);
    WorkloadKeeps(a4, updates, k);
  }

  /** Fields a well-typed update does not name, other than last_active, keep their values. */
  lemma AgentUpdateKeeps(agent: Entries, updates: Entries, now: nat, k: Obj)
    requires WellTypedUpdates(agent, updates)
    requires Untouched(updates, k)
    ensures Lookup(ApplyAgentUpdates(PDict(agent), updates, now).0.entries, k) == Lookup(agent, k)
  {
    AgentUpdateSucceeds(agent, updates, now);
    FieldStepsKeep(agent, updates, k);
  }

  lemma ListStepsWrite(agent: Entries, updates: Entries, key: string)
    requires WellTypedUpdates(agent, updates)
    requires key == "current_tasks" || key == "completed_tasks"
    requires HasKey(updates, PStr(key))
    ensures Lookup(ListSteps(agent, updates), PStr(key)) == Some(PList(TaskList(GetS(updates, key, PNone)).value))
  {
    var a1 := ReplaceList(agent, updates, "current_tasks").value;
    if key == "current_tasks" {
      ReplaceListWrites(agent, updates, key);
      ReplaceListKeeps(a1, updates, "completed_tasks", PStr(key));
    } else {
      ReplaceListWrites(a1, updates, key);
    }
  }

  /** A named task list is replaced by the given items, dict items kept and the rest converted. */
  lemma AgentUpdateTaskList(agent: Entries, updates: Entries, now: nat, key: string)
    requires WellTypedUpdates(agent, updates)
    requires key == "current_tasks" || key == "completed_tasks"
    requires HasKey(updates, PStr(key))
    ensures Lookup(ApplyAgentUpdates(PDict(agent), updates, now).0.entries, PStr(key)) == Some(PList(TaskList(GetS(updates, key, PNone)).value))
  {
    AgentUpdateSucceeds(agent, updates, now);
    var k := PStr(key);
    var a2 := ListSteps(agent, updates);
    var a3 := MergeMetrics(a2, updates).value;
    var a4 := ReplaceCapabilities(a3, updates);
    ListStepsWrite(agent, updates, key);
    MergeMetricsKeeps(a2, updates, k);
    CapabilitiesKeeps(a3, updates, k);
    WorkloadKeeps(a4, updates, k);
  }

  /** Named metrics are merged into the stored ones: `dict.update` semantics. */
  lemma AgentUpdateMetrics(agent: Entries, updates: Entries, now: nat)
    requires WellTypedUpdates(agent, updates)
    requires HasKey(updates, PStr("performance_metrics"))
    ensures Lookup(ApplyAgentUpdates(PDict(agent), updates, now).0.entries, PStr("performance_metrics")) ==
      Some(PDict(Update(Lookup(agent, PStr("performance_metrics")).value.entries, GetS(updates, "performance_metrics", PNone).entries)))
  {
    AgentUpdateSucceeds(agent, updates, now);
    var k := PStr("performance_metrics");
    var a2 := ListSteps(agent, updates);
    var a3 := MergeMetrics(a2, updates).value;
    var a4 := ReplaceCapabilities(a3, updates);
    MergeMetricsWrites(a2, updates);
    CapabilitiesKeeps(a3, updates, k);
    WorkloadKeeps(a4, updates, k);
  }

  /** Given capabilities replace the stored list as they are. */
  lemma AgentUpdateCapabilities(agent: Entries, updates: Entries, now: nat)
    requires WellTypedUpdates(agent, updates)
    requires HasKey(updates, PStr("capabilities"))
    ensures Lookup(ApplyAgentUpdates(PDict(agent), updates, now).0.entries, PStr("capabilities")) == Some(GetS(updates, "capabilities", PNone))
  {
    AgentUpdateSucceeds(agent, updates, now);
    var a3 := MergeMetrics(ListSteps(agent, updates), updates).value;
    WorkloadKeeps(ReplaceCapabilities(a3, updates), updates, PStr("capabilities"));
  }

  /** A given workload is stored as `float(workload)`. */
  lemma AgentUpdateWorkload(agent: Entries, updates: Entries, now: nat)
    requires WellTypedUpdates(agent, updates)
    requires HasKey(updates, PStr("workload"))
    ensures Lookup(ApplyAgentUpdates(PDict(agent), updates, now).0.entries, PStr("workload")) == Some(PFloat(ToFloat(GetS(updates, "workload", PNone)).value))
  {
    AgentUpdateSucceeds(agent, updates, now);
    var a3 := MergeMetrics(ListSteps(agent, updates), updates).value;
    WorkloadWrites(ReplaceCapabilities(a3, updates), updates);
  }

  /** Every successful update refreshes last_active to the current time. */
  lemma AgentUpdateStamp(agent: Entries, updates: Entries, now: nat)
    requires WellTypedUpdates(agent, updates)
    ensures Lookup(ApplyAgentUpdates(PDict(agent), updates, now).0.entries, PStr("last_active")) == Some(TextStamp(now))
  {
    AgentUpdateSucceeds(agent, updates, now);
  }

  // ---------------------------------------------------------------------------
  // The snapshot document: `_serialize_state`, `json.dump`, `_deserialize_state`
  // ---------------------------------------------------------------------------

  /** The values of a dict, each converted; the keys are kept. */
  function ConvertValues(e: Entries): (r: Entries)
    ensures |r| == |e| && forall i :: 0 <= i < |e| ==> r[i] == (e[i].0, Utils.Convert(e[i].1))
  {
    seq(|e|, i requires 0 <= i < |e| => (e[i].0, Utils.Convert(e[i].1)))
  }

  /** Keys and values of a dict, each converted with enum members written as their value. */
  function FixedEntries(e: Entries): (r: Entries)
    ensures |r| == |e| && forall i :: 0 <= i < |e| ==> r[i] == (Utils.ConvertFixed(e[i].0), Utils.ConvertFixed(e[i].1))
  {
    seq(|e|, i requires 0 <= i < |e| => (Utils.ConvertFixed(e[i].0), Utils.ConvertFixed(e[i].1)))
  }

  function ConvertItems(xs: seq<Obj>): (r: seq<Obj>)
    ensures |r| == |xs| && forall i :: 0 <= i < |xs| ==> r[i] == Utils.Convert(xs[i])
  {
    seq(|xs|, i requires 0 <= i < |xs| => Utils.Convert(xs[i]))
  }

  function FixedItems(xs: seq<Obj>): (r: seq<Obj>)
    ensures |r| == |xs| && forall i :: 0 <= i < |xs| ==> r[i] == Utils.ConvertFixed(xs[i])
  {
    seq(|xs|, i requires 0 <= i < |xs| => Utils.ConvertFixed(xs[i]))
  }

  /** The document's nine keys, in the order the writer puts them. */
  function Document(agents: Entries, tasks: Entries, messages: seq<Obj>, s: Company): Obj
  {
    PDict(StrDict(DocumentPairs(agents, tasks, messages, s)))
  }

  /**
   * `_serialize_state` as written: agent and task values and messages pass
   * through `convert_to_serializable`, which leaves the `AgentRole` keys of
   * the agents dict in place and turns every enum member inside a message
   * into its attribute dict. The other values are copied unconverted.
   */
  function Serialized(s: Company): Obj
  {
    Document(Update([], ConvertValues(s.agents)), Update([], ConvertValues(s.tasks)), ConvertItems(s.messages), s)
  }

  /** The writer the reader expects: enum members, as keys or values, are written as their value. */
  function SerializedFixed(s: Company): Obj
  {
    Document(Update([], FixedEntries(s.agents)), Update([], FixedEntries(s.tasks)), FixedItems(s.messages), s)
  }

  lemma {:induction false} JsonValueDumpable(o: Obj)
    requires Utils.JsonValue(o)
    ensures Utils.Dumpable(o)
    decreases o
  {
    match o
    case PList(items) =>
      forall i | 0 <= i < |items| ensures Utils.Dumpable(items[i]) { JsonValueDumpable(items[i]); }
    case PDict(entries) =>
      forall i | 0 <= i < |entries| ensures Utils.Dumpable(entries[i].1) { JsonValueDumpable(entries[i].1); }
    case _ =>
  }

  /** `parse_datetime` on a stored stamp: text only. */
  function ParseStamp(o: Obj): Option<nat>
  {
    if o.PStr? then Clock.Parse(o.s) else None
  }

  lemma StampRoundTrip(t: nat)
    ensures ParseStamp(TextStamp(t)) == Some(t) && ParseStamp(Utils.ConvertFixed(Stamp(t))) == Some(t)
  {
    Clock.ParseFormat(t);
  }

  /** A `Message` rebuilt by the reader; the content and id are whatever the document held. */
  function MessageRecord(sender: Role, recipient: Role, t: MessageType, content: Obj,
                         priority: Priority, timestamp: nat, id: Obj): Obj
  {
    PObject([("sender", RoleObj(sender)), ("recipient", RoleObj(recipient)), ("message_type", TypeObj(t)),
             ("content", content), ("priority", PriorityObj(priority)), ("timestamp", Stamp(timestamp)),
             ("message_id", id)])
  }

  lemma MessageRecordOfMessage(m: Message)
    ensures MessageRecord(m.sender, m.recipient, m.messageType, PDict(m.content), m.priority, m.timestamp, PStr(m.messageId)) == MessageObj(m)
  {
  }

  /**
   * One element of the document's message list. A non-dict element has no
   * `get` (AttributeError, not caught). A sender, recipient, type or priority
   * that names no member, or a timestamp that does not parse, raises
   * ValueError inside the `try`: the message is skipped (`Ok(None)`).
   */
  function DecodeMessage(o: Obj, now: nat): (r: Result<Option<Obj>, PyError>)
    ensures r.Err? <==> !o.PDict?
    ensures r.Err? ==> r.error == AttributeError
  {
    if !o.PDict? then Err(AttributeError)
    else
      var d := o.entries;
      var sender := RoleOf(GetS(d, "sender", PStr("")));
      var recipient := RoleOf(GetS(d, "recipient", PStr("")));
      var kind := TypeOf(GetS(d, "message_type", PStr("")));
      var priority := PriorityOf(GetS(d, "priority", PStr("medium")));
      var stamp := ParseStamp(GetS(d, "timestamp", TextStamp(now)));
      if sender.None? || recipient.None? || kind.None? || priority.None? || stamp.None? then Ok(None)
      else Ok(Some(MessageRecord(sender.value, recipient.value, kind.value, GetS(d, "content", PDict([])),
                                 priority.value, stamp.value, GetS(d, "message_id", PStr("")))))
  }

  /** The message loop: decoded messages are appended to `acc` in document order. */
  function DecodeMessages(acc: seq<Obj>, items: seq<Obj>, now: nat): (r: Result<seq<Obj>, PyError>)
    decreases |items|
  {
    if items == [] then Ok(acc)
    else match DecodeMessage(items[0], now)
      case Err(e) => Err(e)
      case Ok(None) => DecodeMessages(acc, items[1..], now)
      case Ok(Some(m)) => DecodeMessages(acc + [m], items[1..], now)
  }

  /** The document's message list, iterated and decoded; a non-iterable list raises TypeError. */
  function ReadMessages(d: Entries, now: nat): Result<seq<Obj>, PyError>
  {
    match Iterate(GetS(d, "messages", PList([])))
    case Err(e) => Err(e)
    case Ok(items) => DecodeMessages([], items, now)
  }

  /** One agent of the document: a key naming no role is skipped, the value is kept as read. */
  function AddAgent(acc: Entries, kv: (Obj, Obj)): Entries
  {
    match RoleOf(kv.0)
    case None => acc
    case Some(role) => SetItem(acc, RoleObj(role), kv.1)
  }

  /** The agent loop, from the left. */
  function DecodeAgents(acc: Entries, e: Entries): Entries
    decreases |e|
  {
    if e == [] then acc else DecodeAgents(AddAgent(acc, e[0]), e[1..])
  }

  /**
   * `_deserialize_state`. The reader builds only the nine keys it knows, so the
   * other default keys are gone after a load. A non-dict document, agents or
   * tasks value has no `get`/`items` (AttributeError); a current time that
   * does not parse raises ValueError; a message list that cannot be iterated
   * raises TypeError. None of these is caught.
   */
  function Deserialized(data: Obj, now: nat): (r: Result<Company, PyError>)
    ensures r.Ok? ==> r.value.extras == []
  {
    if !data.PDict? then Err(AttributeError)
    else
      var d := data.entries;
      var stamp := ParseStamp(GetS(d, "current_time", TextStamp(now)));
      var agents := GetS(d, "agents", PDict([]));
      var tasks := GetS(d, "tasks", PDict([]));
      if stamp.None? then Err(ValueError)
      else if !agents.PDict? || !tasks.PDict? then Err(AttributeError)
      else match ReadMessages(d, now)
        case Err(e) => Err(e)
        case Ok(messages) =>
          Ok(Company(DecodeAgents([], agents.entries), Update([], tasks.entries), messages, stamp.value,
                     GetS(d, "strategic_goals", PDict([])), GetS(d, "kpis", PDict([])),
                     GetS(d, "market_data", PDict([])), GetS(d, "user_feedback", PList([])),
                     GetS(d, "system_health", PDict([])), []))
  }

  function DocumentPairs(agents: Entries, tasks: Entries, messages: seq<Obj>, s: Company): seq<(string, Obj)>
  {
    [("agents", PDict(agents)), ("tasks", PDict(tasks)), ("messages", PList(messages)),
     ("current_time", TextStamp(s.currentTime)), ("strategic_goals", s.strategicGoals),
     ("kpis", s.kpis), ("market_data", s.marketData), ("user_feedback", s.userFeedback),
     ("system_health", s.systemHealth)]
  }

  /** The document's keys are distinct: each field reads back as written. */
  lemma DocumentField(kvs: seq<(string, Obj)>, i: nat)
    requires |kvs| == 9 && i < 9
    requires kvs[0].0 == "agents" && kvs[1].0 == "tasks" && kvs[2].0 == "messages"
    requires kvs[3].0 == "current_time" && kvs[4].0 == "strategic_goals" && kvs[5].0 == "kpis"
    requires kvs[6].0 == "market_data" && kvs[7].0 == "user_feedback" && kvs[8].0 == "system_health"
    ensures Lookup(StrDict(kvs), PStr(kvs[i].0)) == Some(kvs[i].1)
  {
    assert |kvs[0].0| == 6 && |kvs[1].0| == 5 && |kvs[2].0| == 8 && |kvs[3].0| == 12 && |kvs[4].0| == 15;
    assert |kvs[5].0| == 4 && |kvs[6].0| == 11 && |kvs[7].0| == 13 && |kvs[8].0| == 13 && kvs[7].0[0] != kvs[8].0[0];
    LookupStrDict(kvs, kvs[i].0, i);
  }

  /** Reading a field back from the document gives the value the writer put there. */
  lemma DocumentFields(agents: Entries, tasks: Entries, messages: seq<Obj>, s: Company, now: nat)
    ensures var d := Document(agents, tasks, messages, s).entries;
      GetS(d, "agents", PDict([])) == PDict(agents) && GetS(d, "tasks", PDict([])) == PDict(tasks)
      && GetS(d, "messages", PList([])) == PList(messages) && GetS(d, "current_time", TextStamp(now)) == TextStamp(s.currentTime)
    ensures var d := Document(agents, tasks, messages, s).entries;
      GetS(d, "strategic_goals", PDict([])) == s.strategicGoals && GetS(d, "kpis", PDict([])) == s.kpis
      && GetS(d, "market_data", PDict([])) == s.marketData
    ensures var d := Document(agents, tasks, messages, s).entries;
      GetS(d, "user_feedback", PList([])) == s.userFeedback && GetS(d, "system_health", PDict([])) == s.systemHealth
  {
    var kvs := DocumentPairs(agents, tasks, messages, s);
    DocumentField(kvs, 0);
    DocumentField(kvs, 1);
    DocumentField(kvs, 2);
    DocumentField(kvs, 3);
    DocumentField(kvs, 4);
    DocumentField(kvs, 5);
    DocumentField(kvs, 6);
    DocumentField(kvs, 7);
    DocumentField(kvs, 8);
  }

  /** The keys of a message's attribute dict, in field order. */
  predicate MessageKeys(d: Entries)
  {
    |d| == 7
    && d[0].0 == PStr("sender") && d[1].0 == PStr("recipient") && d[2].0 == PStr("message_type")
    && d[3].0 == PStr("content") && d[4].0 == PStr("priority") && d[5].0 == PStr("timestamp")
    && d[6].0 == PStr("message_id")
  }

  /** The seven keys are distinct, so each reads back its own value. */
  lemma MessageKeyLookup(d: Entries, i: nat)
    requires MessageKeys(d) && i < 7
    ensures Lookup(d, d[i].0) == Some(d[i].1)
  {
    assert forall j :: 0 <= j < 7 ==> |d[j].0.s| > 0;
    assert d[1].0.s[0] != d[5].0.s[0] && d[2].0.s[8] != d[6].0.s[8];
    assert forall j :: 0 <= j < i ==> d[j].0.s[0] != d[i].0.s[0] || d[j].0.s[8] != d[i].0.s[8];
    LookupAt(d, i);
  }

  /** The corrected converter writes an enum member as its value. */
  lemma FixedEnums(m: Message)
    ensures Utils.ConvertFixed(RoleObj(m.sender)) == PStr(RoleValue(m.sender))
    ensures Utils.ConvertFixed(RoleObj(m.recipient)) == PStr(RoleValue(m.recipient))
    ensures Utils.ConvertFixed(TypeObj(m.messageType)) == PStr(TypeValue(m.messageType))
    ensures Utils.ConvertFixed(PriorityObj(m.priority)) == PStr(PriorityValue(m.priority))
  {
  }

  /** As written, every enum member of a message is written as its attribute dict. */
  lemma ConvertedMessageFields(m: Message)
    ensures Utils.Convert(MessageObj(m)).PDict?
    ensures GetS(Utils.Convert(MessageObj(m)).entries, "sender", PStr("")) == Utils.Convert(RoleObj(m.sender))
    ensures Utils.Convert(RoleObj(m.sender)).PDict?
  {
    var d := Utils.Convert(MessageObj(m)).entries;
    assert d[0] == (PStr("sender"), Utils.Convert(RoleObj(m.sender)));
  }

  /**
   * Finding, as written: a message written by `_serialize_state` never reads
   * back. Its sender is written as a dict, `AgentRole(dict)` raises
   * ValueError, and the reader skips the message.
   */
  lemma ConvertedMessageSkipped(m: Message, now: nat)
    ensures DecodeMessage(Utils.Convert(MessageObj(m)), now) == Ok(None)
  {
    ConvertedMessageFields(m);
  }

  function MessageObjs(ms: seq<Message>): (r: seq<Obj>)
    ensures |r| == |ms| && forall i :: 0 <= i < |ms| ==> r[i] == MessageObj(ms[i])
  {
    seq(|ms|, i requires 0 <= i < |ms| => MessageObj(ms[i]))
  }

  lemma {:induction false} ConvertedMessagesSkipped(acc: seq<Obj>, ms: seq<Message>, now: nat)
    ensures DecodeMessages(acc, ConvertItems(MessageObjs(ms)), now) == Ok(acc)
    decreases |ms|
  {
    if ms != [] {
      ConvertedMessageSkipped(ms[0], now);
      ConvertedMessagesSkipped(acc, ms[1..], now);
      assert ConvertItems(MessageObjs(ms))[1..] == ConvertItems(MessageObjs(ms[1..]));
    }
  }

  /** Finding, as written: whatever messages a saved company held, the reader finds none of them. */
  lemma ReloadDropsMessages(s: Company, ms: seq<Message>, now: nat)
    requires s.messages == MessageObjs(ms)
    ensures ReadMessages(Serialized(s).entries, now) == Ok([])
  {
    var agents := Update([], ConvertValues(s.agents));
    var tasks := Update([], ConvertValues(s.tasks));
    DocumentFields(agents, tasks, ConvertItems(s.messages), s, now);
    ConvertedMessagesSkipped([], ms, now);
  }

  /** A message as the corrected converter writes it: enum members as their values, the stamp as text. */
  function FixedMessageDict(m: Message): Entries
  {
    [(PStr("sender"), PStr(RoleValue(m.sender))), (PStr("recipient"), PStr(RoleValue(m.recipient))),
     (PStr("message_type"), PStr(TypeValue(m.messageType))), (PStr("content"), PDict(m.content)),
     (PStr("priority"), PStr(PriorityValue(m.priority))), (PStr("timestamp"), TextStamp(m.timestamp)),
     (PStr("message_id"), PStr(m.messageId))]
  }

  lemma FixedMessageShape(m: Message)
    requires Utils.JsonValue(PDict(m.content))
    ensures Utils.ConvertFixed(MessageObj(m)) == PDict(FixedMessageDict(m))
  {
    var attrs, e := MessageAttrs(m), FixedMessageDict(m);
    Utils.JsonValueSerializable(PDict(m.content));
    Utils.ConvertFixedIdentity(PDict(m.content));
    FixedEnums(m);
    assert Utils.ConvertFixed(Stamp(m.timestamp)) == TextStamp(m.timestamp);
    forall i | 0 <= i < |attrs| ensures e[i] == (PStr(attrs[i].0), Utils.ConvertFixed(attrs[i].1)) {
      if i == 0 {} else if i == 1 {} else if i == 2 {} else if i == 3 {} else if i == 4 {} else if i == 5 {} else {}
    }
    ObjectFields(attrs, e);
  }

  /** An object that is no enum member is written as the dict of its converted attributes. */
  lemma ObjectFields(attrs: seq<(string, Obj)>, e: Entries)
    requires |attrs| != 3
    requires |e| == |attrs| && forall i :: 0 <= i < |attrs| ==> e[i] == (PStr(attrs[i].0), Utils.ConvertFixed(attrs[i].1))
    ensures Utils.ConvertFixed(PObject(attrs)) == PDict(e)
  {
  }

  lemma FixedMessageGets(m: Message, now: nat)
    ensures var d := FixedMessageDict(m);
      GetS(d, "sender", PStr("")) == PStr(RoleValue(m.sender)) && GetS(d, "recipient", PStr("")) == PStr(RoleValue(m.recipient))
      && GetS(d, "message_type", PStr("")) == PStr(TypeValue(m.messageType)) && GetS(d, "content", PDict([])) == PDict(m.content)
    ensures var d := FixedMessageDict(m);
      GetS(d, "priority", PStr("medium")) == PStr(PriorityValue(m.priority)) && GetS(d, "timestamp", TextStamp(now)) == TextStamp(m.timestamp)
      && GetS(d, "message_id", PStr("")) == PStr(m.messageId)
  {
    var d := FixedMessageDict(m);
    MessageKeyLookup(d, 0);
    MessageKeyLookup(d, 1);
    MessageKeyLookup(d, 2);
    MessageKeyLookup(d, 3);
    MessageKeyLookup(d, 4);
    MessageKeyLookup(d, 5);
    MessageKeyLookup(d, 6);
  }

  /** Corrected: a message written with its enum members as values reads back as the same message. */
  lemma FixedMessageRoundTrip(m: Message, now: nat)
    requires Utils.JsonValue(PDict(m.content))
    ensures DecodeMessage(Utils.ConvertFixed(MessageObj(m)), now) == Ok(Some(MessageObj(m)))
  {
    FixedMessageShape(m);
    FixedMessageGets(m, now);
    RoleRoundTrip(m.sender);
    RoleRoundTrip(m.recipient);
    TypeRoundTrip(m.messageType);
    PriorityRoundTrip(m.priority);
    StampRoundTrip(m.timestamp);
    MessageRecordOfMessage(m);
  }

  /** One step of the message loop: a decoded message is appended. */
  lemma DecodeStep(acc: seq<Obj>, items: seq<Obj>, now: nat, x: Obj)
    requires items != [] && DecodeMessage(items[0], now) == Ok(Some(x))
    ensures DecodeMessages(acc, items, now) == DecodeMessages(acc + [x], items[1..], now)
  {
  }

  /** Corrected: messages written with enum members as values all read back, in order. */
  lemma FixedMessagesRead(acc: seq<Obj>, ms: seq<Message>, now: nat)
    requires forall i :: 0 <= i < |ms| ==> Utils.JsonValue(PDict(ms[i].content))
    ensures DecodeMessages(acc, FixedItems(MessageObjs(ms)), now) == Ok(acc + MessageObjs(ms))
  {
    var xs := MessageObjs(ms);
    forall i | 0 <= i < |xs| ensures DecodeMessage(Utils.ConvertFixed(xs[i]), now) == Ok(Some(xs[i])) {
      FixedMessageRoundTrip(ms[i], now);
    }
    FixedObjsRead(acc, xs, now);
  }

  /** Objects each of which the reader gives back after the corrected conversion are all read back, in order. */
  lemma FixedObjsRead(acc: seq<Obj>, xs: seq<Obj>, now: nat)
    requires forall i :: 0 <= i < |xs| ==> DecodeMessage(Utils.ConvertFixed(xs[i]), now) == Ok(Some(xs[i]))
    ensures DecodeMessages(acc, FixedItems(xs), now) == Ok(acc + xs)
  {
    DecodeAll(acc, FixedItems(xs), xs, now);
  }

  /** Items each of which decodes to a message are all read back, in order. */
  lemma DecodeAll(acc: seq<Obj>, items: seq<Obj>, xs: seq<Obj>, now: nat)
    requires |items| == |xs| && forall i :: 0 <= i < |items| ==> DecodeMessage(items[i], now) == Ok(Some(xs[i]))
    ensures DecodeMessages(acc, items, now) == Ok(acc + xs)
  {
    DecodesFrom(items, xs, 0, now);
    assert items[0..] == items && xs[0..] == xs;
    DecodeChain(acc, items, xs, now);
  }

  /** Item by item, `items` decodes to the messages `xs`. */
  predicate DecodesTo(items: seq<Obj>, xs: seq<Obj>, now: nat)
    decreases |items|
  {
    |items| == |xs|
    && (items == [] || (DecodeMessage(items[0], now) == Ok(Some(xs[0])) && DecodesTo(items[1..], xs[1..], now)))
  }

  lemma {:induction false} DecodesFrom(items: seq<Obj>, xs: seq<Obj>, k: nat, now: nat)
    requires |items| == |xs| && k <= |items|
    requires forall i :: 0 <= i < |items| ==> DecodeMessage(items[i], now) == Ok(Some(xs[i]))
    ensures DecodesTo(items[k..], xs[k..], now)
    decreases |items| - k
  {
    if k < |items| {
      DecodesFrom(items, xs, k + 1, now);
      assert items[k..][1..] == items[k + 1..] && xs[k..][1..] == xs[k + 1..];
    }
  }

  /** The message loop over items that decode item by item appends their messages. */
  lemma {:induction false} DecodeChain(acc: seq<Obj>, items: seq<Obj>, xs: seq<Obj>, now: nat)
    requires DecodesTo(items, xs, now)
    ensures DecodeMessages(acc, items, now) == Ok(acc + xs)
    decreases |items|
  {
    if items == [] {
      assert acc + xs == acc;
    } else {
      DecodeStep(acc, items, now, xs[0]);
      DecodeChain(acc + [xs[0]], items[1..], xs[1..], now);
      assert (acc + [xs[0]]) + xs[1..] == acc + xs;
    }
  }

  /** Every key is an `AgentRole` member, as in the in-memory agents dict. */
  predicate RoleKeyed(d: Entries)
  {
    forall i :: 0 <= i < |d| ==> RoleOf(d[i].0).Some? && d[i].0 == RoleObj(RoleOf(d[i].0).value)
  }

  /** Every key is a string, as in a dict read from JSON. */
  predicate StrKeyed(d: Entries)
  {
    forall i :: 0 <= i < |d| ==> d[i].0.PStr?
  }

  lemma FixedRole(r: Role)
    ensures Utils.ConvertFixed(RoleObj(r)) == PStr(RoleValue(r))
  {
    FixedEnum("AgentRole", RoleName(r), RoleValue(r));
  }

  /** Any enum member is written as its value. */
  lemma FixedEnum(cls: string, name: string, value: string)
    ensures Utils.ConvertFixed(EnumObj(cls, name, value)) == PStr(value)
  {
    assert Utils.EnumAttrs(EnumObj(cls, name, value).attrs);
  }

  /** Distinct roles have distinct values, so the written agent keys stay distinct. */
  lemma FixedAgentKeys(a: Entries)
    requires RoleKeyed(a) && UniqueKeys(a)
    ensures UniqueKeys(FixedEntries(a))
  {
    var fe := FixedEntries(a);
    forall i, j | 0 <= i < j < |a|
      ensures fe[i].0 != fe[j].0
    {
      var ri, rj := RoleOf(a[i].0).value, RoleOf(a[j].0).value;
      FixedRole(ri);
      FixedRole(rj);
      RoleValueRoundTrip(ri);
      RoleValueRoundTrip(rj);
    }
  }

  /** `e` lists the agents of `a`, each under a key naming the role `a` files it under. */
  predicate NamesRoles(e: Entries, a: Entries)
  {
    |e| == |a|
    && forall i :: 0 <= i < |e| ==> RoleOf(e[i].0).Some? && RoleObj(RoleOf(e[i].0).value) == a[i].0 && e[i].1 == a[i].1
  }

  lemma AddFresh(acc: Entries, kv: (Obj, Obj), k: Obj)
    requires RoleOf(kv.0).Some? && RoleObj(RoleOf(kv.0).value) == k && !HasKey(acc, k)
    ensures AddAgent(acc, kv) == acc + [(k, kv.1)]
  {
  }

  lemma NamesRolesTail(e: Entries, a: Entries)
    requires NamesRoles(e, a) && e != []
    ensures NamesRoles(e[1..], a[1..])
    ensures RoleOf(e[0].0).Some? && RoleObj(RoleOf(e[0].0).value) == a[0].0 && e[0].1 == a[0].1
  {
  }

  /** The agent loop over keys naming distinct new roles files every agent, in order. */
  lemma {:induction false} DecodeAgentsFresh(acc: Entries, e: Entries, a: Entries)
    requires NamesRoles(e, a) && UniqueKeys(acc + a)
    ensures DecodeAgents(acc, e) == acc + a
    decreases |e|
  {
    if e == [] {
      assert acc + a == acc;
    } else {
      NamesRolesTail(e, a);
      UniqueSplit(acc, a);
      var acc' := AddAgent(acc, e[0]);
      AddFresh(acc, e[0], a[0].0);
      assert acc' == acc + [a[0]];
      DecodeAgentsFresh(acc', e[1..], a[1..]);
      assert DecodeAgents(acc, e) == DecodeAgents(acc', e[1..]);
    }
  }

  /** Moving the first key of `a` over to `acc` keeps the keys unique; that key is new to `acc`. */
  lemma UniqueSplit(acc: Entries, a: Entries)
    requires UniqueKeys(acc + a) && a != []
    ensures !HasKey(acc, a[0].0)
    ensures UniqueKeys((acc + [a[0]]) + a[1..])
    ensures (acc + [a[0]]) + a[1..] == acc + a
  {
    var all := acc + a;
    assert (acc + [a[0]]) + a[1..] == all;
    forall j | 0 <= j < |acc| ensures acc[j].0 != a[0].0 {
      assert all[j] == acc[j] && all[|acc|] == a[0];
    }
  }

  /** The corrected writer puts each agent under its role's value, which names that role. */
  lemma FixedNamesRoles(a: Entries)
    requires RoleKeyed(a) && forall i :: 0 <= i < |a| ==> Utils.Serializable(a[i].1)
    ensures NamesRoles(FixedEntries(a), a)
  {
    var fe := FixedEntries(a);
    forall i | 0 <= i < |a|
      ensures RoleOf(fe[i].0).Some? && RoleObj(RoleOf(fe[i].0).value) == a[i].0 && fe[i].1 == a[i].1
    {
      var r := RoleOf(a[i].0).value;
      FixedRole(r);
      RoleRoundTrip(r);
      Utils.ConvertFixedIdentity(a[i].1);
    }
  }

  /** Task ids are strings, which the converter keeps, so the written task keys stay distinct. */
  lemma FixedTaskKeys(t: Entries)
    requires StrKeyed(t) && UniqueKeys(t)
    ensures FixedEntries(t) == seq(|t|, i requires 0 <= i < |t| => (t[i].0, Utils.ConvertFixed(t[i].1)))
    ensures UniqueKeys(FixedEntries(t)) && StrKeyed(FixedEntries(t))
  {
  }

  /** A dict with distinct keys is copied unchanged by the `d[k] = v` loop. */
  lemma CopyUnique(e: Entries)
    requires UniqueKeys(e)
    ensures Update([], e) == e
  {
    assert [] + e == e;
    UpdateFresh([], e);
  }

  /** What the corrected writer and the reader need of a company: Python dicts with role and string keys, messages built by `Message`. */
  predicate Reloadable(s: Company, ms: seq<Message>)
  {
    RoleKeyed(s.agents) && UniqueKeys(s.agents) && (forall i :: 0 <= i < |s.agents| ==> Utils.JsonValue(s.agents[i].1))
    && StrKeyed(s.tasks) && UniqueKeys(s.tasks)
    && s.messages == MessageObjs(ms) && (forall i :: 0 <= i < |ms| ==> Utils.JsonValue(PDict(ms[i].content)))
  }

  /** Corrected: the agents dict reads back as it was. */
  lemma FixedAgentsReload(a: Entries)
    requires RoleKeyed(a) && UniqueKeys(a) && forall i :: 0 <= i < |a| ==> Utils.JsonValue(a[i].1)
    ensures DecodeAgents([], Update([], FixedEntries(a))) == a
  {
    FixedAgentKeys(a);
    CopyUnique(FixedEntries(a));
    forall i | 0 <= i < |a| ensures Utils.Serializable(a[i].1) {
      Utils.JsonValueSerializable(a[i].1);
    }
    FixedNamesRoles(a);
    assert [] + a == a;
    DecodeAgentsFresh([], FixedEntries(a), a);
  }

  /** Corrected: the tasks dict reads back as its converted values under the same ids. */
  lemma FixedTasksReload(t: Entries)
    requires StrKeyed(t) && UniqueKeys(t)
    ensures Update([], Update([], FixedEntries(t))) == FixedEntries(t)
  {
    FixedTaskKeys(t);
    CopyUnique(FixedEntries(t));
  }

  /**
   * Corrected round trip: a company written with enum members as their values
   * reads back with the same agents, messages, time and dict fields. Tasks
   * read back as their converted dicts (the reader keeps them as read) and
   * the extra default keys are gone.
   */
  lemma FixedReload(s: Company, ms: seq<Message>, now: nat)
    requires Reloadable(s, ms)
    ensures Deserialized(SerializedFixed(s), now) == Ok(s.(tasks := FixedEntries(s.tasks), extras := []))
  {
    var agents := Update([], FixedEntries(s.agents));
    var tasks := Update([], FixedEntries(s.tasks));
    var messages := FixedItems(s.messages);
    FixedAgentsReload(s.agents);
    FixedTasksReload(s.tasks);
    StoredMessagesRead(s.messages, ms, now);
    ReadParts(agents, tasks, messages, s, FixedEntries(s.tasks), now);
  }

  lemma StoredMessagesRead(stored: seq<Obj>, ms: seq<Message>, now: nat)
    requires stored == MessageObjs(ms) && forall i :: 0 <= i < |ms| ==> Utils.JsonValue(PDict(ms[i].content))
    ensures DecodeMessages([], FixedItems(stored), now) == Ok(stored)
  {
    FixedMessagesRead([], ms, now);
    assert [] + stored == stored;
  }

  /** A document whose three decoded parts are known reads back as the company with those parts. */
  lemma ReadParts(agents: Entries, tasks: Entries, messages: seq<Obj>, s: Company, t: Entries, now: nat)
    requires DecodeAgents([], agents) == s.agents
    requires Update([], tasks) == t
    requires DecodeMessages([], messages, now) == Ok(s.messages)
    ensures Deserialized(Document(agents, tasks, messages, s), now) == Ok(s.(tasks := t, extras := []))
  {
    ReadDocument(agents, tasks, messages, s, now);
  }

  /** Reading a document back: the stored time, agents, tasks and messages decoded, the other fields as written. */
  lemma ReadDocument(agents: Entries, tasks: Entries, messages: seq<Obj>, s: Company, now: nat)
    ensures Deserialized(Document(agents, tasks, messages, s), now)
         == match DecodeMessages([], messages, now)
            case Err(e) => Err(e)
            case Ok(read) => Ok(Company(DecodeAgents([], agents), Update([], tasks), read, s.currentTime,
                                        s.strategicGoals, s.kpis, s.marketData, s.userFeedback, s.systemHealth, []))
  {
    DocumentFields(agents, tasks, messages, s, now);
    StampRoundTrip(s.currentTime);
  }

  /** The five dict fields the writer copies as they are hold JSON values. */
  predicate JsonFields(s: Company)
  {
    Utils.JsonValue(s.strategicGoals) && Utils.JsonValue(s.kpis) && Utils.JsonValue(s.marketData)
    && Utils.JsonValue(s.userFeedback) && Utils.JsonValue(s.systemHealth)
  }

  /** A document is JSON when its agents, tasks, messages and copied fields are. */
  lemma DocumentJson(agents: Entries, tasks: Entries, messages: seq<Obj>, s: Company)
    requires Utils.JsonValue(PDict(agents)) && Utils.JsonValue(PDict(tasks)) && Utils.JsonValue(PList(messages))
    requires JsonFields(s)
    ensures Utils.JsonValue(Document(agents, tasks, messages, s))
  {
    var kvs := DocumentPairs(agents, tasks, messages, s);
    var d := StrDict(kvs);
    assert forall i :: 0 <= i < |kvs| ==> Utils.JsonValue(kvs[i].1);
    assert forall i :: 0 <= i < |d| ==> d[i].0.PStr? && Utils.JsonValue(d[i].1);
  }

  lemma FixedAgentsJson(a: Entries)
    requires RoleKeyed(a) && UniqueKeys(a) && forall i :: 0 <= i < |a| ==> Utils.JsonValue(a[i].1)
    ensures Utils.JsonValue(PDict(Update([], FixedEntries(a))))
  {
    var fa := FixedEntries(a);
    FixedAgentKeys(a);
    CopyUnique(fa);
    forall i | 0 <= i < |fa| ensures fa[i].0.PStr? && Utils.JsonValue(fa[i].1) {
      FixedRole(RoleOf(a[i].0).value);
      Utils.JsonValueSerializable(a[i].1);
      Utils.ConvertFixedIdentity(a[i].1);
    }
  }

  lemma FixedTasksJson(t: Entries)
    requires StrKeyed(t) && UniqueKeys(t) && forall i :: 0 <= i < |t| ==> Utils.StrKeys(t[i].1)
    ensures Utils.JsonValue(PDict(Update([], FixedEntries(t))))
  {
    var ft := FixedEntries(t);
    FixedTaskKeys(t);
    CopyUnique(ft);
    forall i | 0 <= i < |ft| ensures Utils.JsonValue(ft[i].1) {
      Utils.ConvertFixedJson(t[i].1);
    }
  }

  lemma FixedMessagesJson(ms: seq<Message>)
    requires forall i :: 0 <= i < |ms| ==> Utils.JsonValue(PDict(ms[i].content))
    ensures Utils.JsonValue(PList(FixedItems(MessageObjs(ms))))
  {
    var fm := FixedItems(MessageObjs(ms));
    forall i | 0 <= i < |fm| ensures Utils.JsonValue(fm[i]) {
      FixedMessageShape(ms[i]);
    }
  }

  /** Corrected: with string keys inside task values and JSON-valued fields, the document is JSON, so `json.dump` accepts it. */
  lemma FixedDocumentJson(s: Company, ms: seq<Message>)
    requires Reloadable(s, ms) && JsonFields(s)
    requires forall i :: 0 <= i < |s.tasks| ==> Utils.StrKeys(s.tasks[i].1)
    ensures Utils.JsonValue(SerializedFixed(s)) && Utils.Dumpable(SerializedFixed(s))
  {
    var agents := Update([], FixedEntries(s.agents));
    var tasks := Update([], FixedEntries(s.tasks));
    var messages := FixedItems(s.messages);
    assert SerializedFixed(s) == Document(agents, tasks, messages, s);
    FixedAgentsJson(s.agents);
    FixedTasksJson(s.tasks);
    FixedMessagesJson(ms);
    DocumentJson(agents, tasks, messages, s);
    JsonValueDumpable(SerializedFixed(s));
  }

  /** A dict with a key `json.dump` refuses is refused, and so is a document holding it as its agents. */
  lemma BadKeyRefused(d: Entries, i: nat, tasks: Entries, messages: seq<Obj>, s: Company)
    requires i < |d| && !Utils.JsonKey(d[i].0)
    ensures !Utils.Dumpable(PDict(d)) && !Utils.Dumpable(Document(d, tasks, messages, s))
  {
    var doc := Document(d, tasks, messages, s).entries;
    assert doc[0] == (PStr("agents"), PDict(d));
  }

  /** Finding, as written: one agent in the company makes `save_state` raise TypeError, since its `AgentRole` key is no JSON key. */
  lemma SaveRejectsAgents(s: Company, r: Role)
    requires HasKey(s.agents, RoleObj(r))
    ensures !Utils.Dumpable(Serialized(s))
  {
    NonJsonAgentKey(s, RoleObj(r));
  }

  /** An agents dict with a key `json.dump` refuses makes the whole written document undumpable. */
  lemma NonJsonAgentKey(s: Company, k: Obj)
    requires HasKey(s.agents, k) && !Utils.JsonKey(k)
    ensures !Utils.Dumpable(Serialized(s))
  {
    var cv := ConvertValues(s.agents);
    var i :| 0 <= i < |s.agents| && s.agents[i].0 == k;
    assert cv[i].0 == k;
    UpdateHasKey([], cv, k);
    var ag := Update([], cv);
    var j :| 0 <= j < |ag| && ag[j].0 == k;
    BadKeyRefused(ag, j, Update([], ConvertValues(s.tasks)), ConvertItems(s.messages), s);
  }

  /** As written, a company's KPIs survive a save and a load; its messages do not. */
  lemma ReloadKeepsKpis(s: Company, ms: seq<Message>, now: nat)
    requires s.messages == MessageObjs(ms)
    ensures Deserialized(Serialized(s), now).Ok?
    ensures Deserialized(Serialized(s), now).value.kpis == s.kpis
    ensures Deserialized(Serialized(s), now).value.messages == []
  {
    var agents := Update([], ConvertValues(s.agents));
    var tasks := Update([], ConvertValues(s.tasks));
    DocumentFields(agents, tasks, ConvertItems(s.messages), s, now);
    StampRoundTrip(s.currentTime);
    ReloadDropsMessages(s, ms, now);
  }

  /** The reader keeps an agent whose key is a role value and skips any other key; a later duplicate wins. */
  lemma {:induction false} DecodeAgentsLookup(acc: Entries, e: Entries, r: Role)
    requires StrKeyed(e) && UniqueKeys(e)
    ensures Lookup(DecodeAgents(acc, e), RoleObj(r))
         == if HasKey(e, PStr(RoleValue(r))) then Lookup(e, PStr(RoleValue(r))) else Lookup(acc, RoleObj(r))
    decreases |e|
  {
    if e != [] {
      var k := PStr(RoleValue(r));
      var acc' := AddAgent(acc, e[0]);
      assert StrKeyed(e[1..]) && UniqueKeys(e[1..]);
      DecodeAgentsLookup(acc', e[1..], r);
      RoleValueRoundTrip(r);
      if e[0].0 == k {
        assert !HasKey(e[1..], k);
      } else {
        HasKeyTail(e, k);
        match RoleOf(e[0].0)
        case None =>
        case Some(r0) =>
          assert RoleObj(r0).attrs[0].1 != RoleObj(r).attrs[0].1;
      }
    }
  }

  /** Every agent the reader keeps is filed under its role. */
  lemma {:induction false} DecodeAgentsRoleKeyed(acc: Entries, e: Entries)
    requires RoleKeyed(acc)
    ensures RoleKeyed(DecodeAgents(acc, e))
    decreases |e|
  {
    if e != [] {
      var acc' := AddAgent(acc, e[0]);
      match RoleOf(e[0].0) {
        case None =>
        case Some(role) => RoleRoundTrip(role);
      }
      assert RoleKeyed(acc');
      DecodeAgentsRoleKeyed(acc', e[1..]);
    }
  }

  /** A message dict is skipped exactly when a role, type or priority tag names no member or the timestamp does not parse. */
  lemma MessageSkipped(o: Obj, now: nat)
    requires o.PDict?
    ensures DecodeMessage(o, now) == Ok(None) <==>
      RoleOf(GetS(o.entries, "sender", PStr(""))).None? || RoleOf(GetS(o.entries, "recipient", PStr(""))).None?
      || TypeOf(GetS(o.entries, "message_type", PStr(""))).None? || PriorityOf(GetS(o.entries, "priority", PStr("medium"))).None?
      || ParseStamp(GetS(o.entries, "timestamp", TextStamp(now))).None?
  {
  }

  /** A message that is read carries the priority its tag names. */
  lemma MessagePriority(o: Obj, now: nat, p: Priority)
    requires o.PDict? && PriorityOf(GetS(o.entries, "priority", PStr("medium"))) == Some(p)
    requires DecodeMessage(o, now) != Ok(None)
    ensures DecodeMessage(o, now).Ok? && DecodeMessage(o, now).value.Some?
    ensures DecodeMessage(o, now).value.value.attrs[4] == ("priority", PriorityObj(p))
  {
  }

  lemma MediumTag(d: Entries)
    requires !HasKey(d, PStr("priority"))
    ensures PriorityOf(GetS(d, "priority", PStr("medium"))) == Some(Medium)
  {
    assert GetS(d, "priority", PStr("medium")) == PStr("medium");
  }

  /** A message dict without a priority is read with priority medium. */
  lemma MissingPriorityIsMedium(o: Obj, now: nat)
    requires o.PDict? && !HasKey(o.entries, PStr("priority"))
    requires DecodeMessage(o, now) != Ok(None)
    ensures DecodeMessage(o, now).Ok? && DecodeMessage(o, now).value.Some?
    ensures DecodeMessage(o, now).value.value.attrs[4] == ("priority", PriorityObj(Medium))
  {
    MediumTag(o.entries);
    MessagePriority(o, now, Medium);
  }

  class StateManager {
    var state: Company

    constructor (now: nat)
      ensures state == DefaultState(now)
    {
      state := DefaultState(now);
    }

    /**
     * `update_agent_state`: non-dict updates are ignored; an unseen role first
     * gets a default entry; then the field updates are applied in place.
     */
    method UpdateAgentState(role: Role, updates: Obj, now: nat) returns (err: Option<PyError>)
      modifies this
      ensures !updates.PDict? ==> state == old(state) && err.None?
      ensures updates.PDict? ==>
        var entry := if HasKey(old(state).agents, RoleObj(role)) then Lookup(old(state).agents, RoleObj(role)).value
                     else PDict(NewAgentEntry(role, now));
        var res := ApplyAgentUpdates(entry, updates.entries, now);
        state == old(state).(agents := SetItem(old(state).agents, RoleObj(role), res.0)) && err == res.1
    {
      var valid := Utils.ValidateDictFields(updates, PList([]));
      if valid != Ok(true) {
        return None;
      }
      if !HasKey(state.agents, RoleObj(role)) {
        state := state.(agents := SetItem(state.agents, RoleObj(role), PDict(NewAgentEntry(role, now))));
      }
      var entry := Lookup(state.agents, RoleObj(role)).value;
      var res := ApplyAgentUpdates(entry, updates.entries, now);
      assert SetItem(SetItem(old(state).agents, RoleObj(role), PDict(NewAgentEntry(role, now))), RoleObj(role), res.0)
          == SetItem(old(state).agents, RoleObj(role), res.0) by {
        SetItemTwice(old(state).agents, RoleObj(role), PDict(NewAgentEntry(role, now)), res.0);
      }
      state := state.(agents := SetItem(state.agents, RoleObj(role), res.0));
      err := res.1;
    }

    /** `add_task`: keyed by task id, so adding the same id again overwrites. */
    method AddTask(t: Task)
      modifies this
      ensures state == old(state).(tasks := SetItem(old(state).tasks, PStr(t.taskId), TaskObj(t)))
      ensures Lookup(state.tasks, PStr(t.taskId)) == Some(TaskObj(t))
    {
      state := state.(tasks := SetItem(state.tasks, PStr(t.taskId), TaskObj(t)));
    }

    /** `add_message`: appended. */
    method AddMessage(m: Message)
      modifies this
      ensures state == old(state).(messages := old(state).messages + [MessageObj(m)])
    {
      state := state.(messages := state.messages + [MessageObj(m)]);
    }

    /** `add_user_feedback`: stamps the feedback, then appends it; a non-list feedback field has no `append`. */
    method AddUserFeedback(feedback: Entries, now: nat) returns (err: Option<PyError>)
      modifies this
      ensures var f := SetItem(SetItem(feedback, PStr("timestamp"), TextStamp(now)), PStr("feedback_id"), PStr("fb_" + Clock.Format(now)));
        if old(state).userFeedback.PList? then
          err.None? && state == old(state).(userFeedback := PList(old(state).userFeedback.items + [PDict(f)]))
        else err == Some(AttributeError) && state == old(state)
    {
      var f := SetItem(SetItem(feedback, PStr("timestamp"), TextStamp(now)), PStr("feedback_id"), PStr("fb_" + Clock.Format(now)));
      if !state.userFeedback.PList? {
        return Some(AttributeError);
      }
      state := state.(userFeedback := PList(state.userFeedback.items + [PDict(f)]));
      err := None;
    }

    /** The dict loop of `_serialize_state`: each value converted and set under its key, in order. */
    method WriteDict(e: Entries) returns (r: Entries)
      ensures r == Update([], ConvertValues(e))
    {
      r := [];
      var i := 0;
      while i < |e|
        invariant 0 <= i <= |e|
        invariant Update(r, ConvertValues(e)[i..]) == Update([], ConvertValues(e))
      {
        assert ConvertValues(e)[i..][1..] == ConvertValues(e)[i + 1..];
        r := SetItem(r, e[i].0, Utils.Convert(e[i].1));
        i := i + 1;
      }
      assert ConvertValues(e)[i..] == [];
    }

    /** The message loop of `_serialize_state`: each message converted and appended. */
    method WriteList(xs: seq<Obj>) returns (r: seq<Obj>)
      ensures r == ConvertItems(xs)
    {
      r := [];
      var i := 0;
      while i < |xs|
        invariant 0 <= i <= |xs|
        invariant |r| == i && forall j :: 0 <= j < i ==> r[j] == Utils.Convert(xs[j])
      {
        r := r + [Utils.Convert(xs[i])];
        i := i + 1;
      }
    }

    /**
     * `_serialize_state`: agent and task values are converted entry by entry
     * under their original keys, each message is converted and appended, the
     * rest is copied.
     */
    method SerializeState(s: Company) returns (doc: Obj)
      ensures doc == Serialized(s)
    {
      var agents := WriteDict(s.agents);
      var tasks := WriteDict(s.tasks);
      var messages := WriteList(s.messages);
      doc := Document(agents, tasks, messages, s);
    }

    /**
     * `save_state`: the document `json.dump` writes, or the TypeError it
     * raises, which it does for every company holding an agent.
     */
    method SaveState(s: Company) returns (r: Result<Obj, PyError>)
      ensures Utils.Dumpable(Serialized(s)) ==> r == Ok(Serialized(s))
      ensures !Utils.Dumpable(Serialized(s)) ==> r == Err(TypeError)
      ensures forall role: Role :: HasKey(s.agents, RoleObj(role)) ==> r == Err(TypeError)
    {
      var doc := SerializeState(s);
      forall role: Role | HasKey(s.agents, RoleObj(role)) ensures !Utils.Dumpable(doc) {
        SaveRejectsAgents(s, role);
      }
      if !Utils.Dumpable(doc) {
        return Err(TypeError);
      }
      return Ok(doc);
    }

    /**
     * `_deserialize_state`: the time is parsed first, then agents, tasks and
     * messages are read by three loops; an agent key naming no role and a
     * message that does not parse are skipped.
     */
    method DeserializeState(data: Obj, now: nat) returns (r: Result<Company, PyError>)
      ensures r == Deserialized(data, now)
    {
      if !data.PDict? {
        return Err(AttributeError);
      }
      var d := data.entries;
      var stamp := ParseStamp(GetS(d, "current_time", TextStamp(now)));
      if stamp.None? {
        return Err(ValueError);
      }
      var agentsData := GetS(d, "agents", PDict([]));
      if !agentsData.PDict? {
        return Err(AttributeError);
      }
      var e := agentsData.entries;
      var agents: Entries := [];
      var i := 0;
      while i < |e|
        invariant 0 <= i <= |e|
        invariant DecodeAgents(agents, e[i..]) == DecodeAgents([], e)
      {
        assert e[i..][1..] == e[i + 1..];
        match RoleOf(e[i].0) {
          case None =>
          case Some(role) => agents := SetItem(agents, RoleObj(role), e[i].1);
        }
        i := i + 1;
      }
      assert e[i..] == [];
      var tasksData := GetS(d, "tasks", PDict([]));
      if !tasksData.PDict? {
        return Err(AttributeError);
      }
      var t := tasksData.entries;
      var tasks: Entries := [];
      i := 0;
      while i < |t|
        invariant 0 <= i <= |t|
        invariant Update(tasks, t[i..]) == Update([], t)
      {
        assert t[i..][1..] == t[i + 1..];
        tasks := SetItem(tasks, t[i].0, t[i].1);
        i := i + 1;
      }
      assert t[i..] == [];
      var items := Iterate(GetS(d, "messages", PList([])));
      if items.Err? {
        return Err(items.error);
      }
      var ms := items.value;
      var messages: seq<Obj> := [];
      i := 0;
      while i < |ms|
        invariant 0 <= i <= |ms|
        invariant DecodeMessages(messages, ms[i..], now) == DecodeMessages([], ms, now)
      {
        assert ms[i..][1..] == ms[i + 1..];
        var m := DecodeMessage(ms[i], now);
        if m.Err? {
          return Err(m.error);
        }
        if m.value.Some? {
          messages := messages + [m.value.value];
        }
        i := i + 1;
      }
      assert ms[i..] == [];
      r := Ok(Company(agents, tasks, messages, stamp.value,
                      GetS(d, "strategic_goals", PDict([])), GetS(d, "kpis", PDict([])),
                      GetS(d, "market_data", PDict([])), GetS(d, "user_feedback", PList([])),
                      GetS(d, "system_health", PDict([])), []));
    }

    /**
     * `load_state`: FileNotFoundError when there is no state file; otherwise
     * the parsed document is read and becomes the state. On an error the
     * state is left as it was.
     */
    method LoadState(fileExists: bool, data: Obj, now: nat) returns (err: Option<PyError>)
      modifies this
      ensures !fileExists ==> err == Some(FileNotFoundError) && state == old(state)
      ensures fileExists && Deserialized(data, now).Ok? ==> err.None? && state == Deserialized(data, now).value
      ensures fileExists && Deserialized(data, now).Err? ==> err == Some(Deserialized(data, now).error) && state == old(state)
    {
      if !fileExists {
        return Some(FileNotFoundError);
      }
      var r := DeserializeState(data, now);
      if r.Err? {
        return Some(r.error);
      }
      state := r.value;
      err := None;
    }

    /** `update_kpis`: merged key-wise into the KPI dict. */
    method UpdateKpis(kpis: Entries) returns (err: Option<PyError>)
      modifies this
      ensures old(state).kpis.PDict? ==> err.None? && state == old(state).(kpis := PDict(Update(old(state).kpis.entries, kpis)))
      ensures !old(state).kpis.PDict? ==> err == Some(AttributeError) && state == old(state)
    {
      if !state.kpis.PDict? {
        return Some(AttributeError);
      }
      state := state.(kpis := PDict(Update(state.kpis.entries, kpis)));
      err := None;
    }

    /** `update_system_health`: merged, then `last_updated` is stamped. */
    method UpdateSystemHealth(health: Entries, now: nat) returns (err: Option<PyError>)
      modifies this
      ensures old(state).systemHealth.PDict? ==> err.None?
      ensures old(state).systemHealth.PDict? ==> state == old(state).(systemHealth := PDict(SetItem(Update(old(state).systemHealth.entries, health), PStr("last_updated"), TextStamp(now))))
      ensures !old(state).systemHealth.PDict? ==> err == Some(AttributeError) && state == old(state)
    {
      if !state.systemHealth.PDict? {
        return Some(AttributeError);
      }
      state := state.(systemHealth := PDict(SetItem(Update(state.systemHealth.entries, health), PStr("last_updated"), TextStamp(now))));
      err := None;
    }
  }

  lemma SetItemTwice(d: Entries, k: Obj, v: Obj, w: Obj)
    ensures SetItem(SetItem(d, k, v), k, w) == SetItem(d, k, w)
  {
    if d != [] && d[0].0 != k {
      SetItemTwice(d[1..], k, v, w);
    }
  }
}
