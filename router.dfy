// src/agents/router.py: MessageRouter picks the recipient of a message
// from its type and from lookup tables over its content. `route` returns
// whatever object the content names (normally an AgentRole member).
module Router {
  import opened Wrappers
  import opened Py
  import opened Base
  import Strings

  type Table = seq<(string, Role)>

  const CategoryTable: Table := [
    ("technology", CTO), ("financial", CFO), ("market", CMO), ("product", CPO),
    ("customer", CustomerSupport), ("general", DataAnalyst)]

  const RequestTypeTable: Table := [
    ("metrics", DataAnalyst), ("kpi", DataAnalyst), ("financial_report", CFO),
    ("tech_stack", CTO), ("security", CTO), ("market_data", CMO)]

  const ApproverTable: Table := [
    ("budget", CFO), ("financial", CFO), ("technology", CTO), ("tech", CTO),
    ("product", CPO), ("hr", HR), ("marketing", CMO)]

  const TopicTable: Table := [
    ("technical", CTO), ("technology", CTO), ("development", RD), ("product", CPO),
    ("marketing", CMO), ("financial", CFO), ("hr", HR), ("strategy", CEO), ("operations", Operations)]

  const ApprovalKeywords: seq<string> :=
    ["budget", "financial", "technology", "tech", "product", "architectural", "deployment", "security"]

  const AlertKeywords: seq<string> :=
    ["critical", "error", "failed", "emergency", "urgent", "down", "broken", "severe", "high"]

  /** `key in table` with a dict key: exact equality. */
  function ExactLookup(tab: Table, key: string): (r: Option<Role>)
    ensures r.None? <==> forall i :: 0 <= i < |tab| ==> tab[i].0 != key
    ensures r.Some? ==> exists i :: 0 <= i < |tab| && tab[i] == (key, r.value)
  {
    AssocGet(tab, key)
  }

  /** The role of the first entry, in table order, whose key occurs in `text`. */
  function FirstContained(tab: Table, text: string): (r: Option<Role>)
    ensures r.None? <==> forall i :: 0 <= i < |tab| ==> !Strings.Contains(text, tab[i].0)
    ensures r.Some? ==> exists i :: 0 <= i < |tab| && tab[i].1 == r.value
                          && Strings.Contains(text, tab[i].0)
                          && forall j :: 0 <= j < i ==> !Strings.Contains(text, tab[j].0)
  {
    if tab == [] then None
    else if Strings.Contains(text, tab[0].0) then Some(tab[0].1)
    else
      var rest := FirstContained(tab[1..], text);
      assert forall i :: 1 <= i < |tab| ==> tab[i] == tab[1..][i - 1];
      rest
  }

  /** `value in mapping` for an arbitrary content value: strings are looked up, lists and dicts raise TypeError. */
  function DictKeyLookup(tab: Table, o: Obj): Result<Option<Role>, PyError>
  {
    if o.PStr? then Ok(ExactLookup(tab, o.s))
    else if Unhashable(o) then Err(TypeError)
    else Ok(None)
  }

  /** `_route_data_request`: the data_category table wins over the request_type table; DATA_ANALYST otherwise. */
  function RouteDataRequest(content: Entries): (r: Result<Role, PyError>)
    ensures GetS(content, "data_category", PStr("")) == PStr("financial") ==> r == Ok(CFO)
    ensures forall c :: GetS(content, "data_category", PStr("")) == PStr(c) && ExactLookup(CategoryTable, c).Some?
              ==> r == Ok(ExactLookup(CategoryTable, c).value)
    ensures forall c, t :: GetS(content, "data_category", PStr("")) == PStr(c) && ExactLookup(CategoryTable, c).None?
              && GetS(content, "request_type", PStr("")) == PStr(t)
              ==> r == Ok(if ExactLookup(RequestTypeTable, t).Some? then ExactLookup(RequestTypeTable, t).value else DataAnalyst)
  {
    var requestType := GetS(content, "request_type", PStr(""));
    var category := GetS(content, "data_category", PStr(""));
    match DictKeyLookup(CategoryTable, category)
    case Err(e) => Err(e)
    case Ok(Some(role)) => Ok(role)
    case Ok(None) =>
      match DictKeyLookup(RequestTypeTable, requestType)
      case Err(e) => Err(e)
      case Ok(Some(role)) => Ok(role)
      case Ok(None) => Ok(DataAnalyst)
  }

  /** `_get_approver`. */
  function GetApprover(content: Entries): (r: Result<Role, PyError>)
    ensures !GetS(content, "request_type", PStr("")).PStr? ==> r == Err(AttributeError)
  {
    var requestType := GetS(content, "request_type", PStr(""));
    var budget := GetS(content, "budget", PInt(0));
    match LowerOf(requestType)
    case Err(e) => Err(e)
    case Ok(lowered) =>
      match FirstContained(ApproverTable, lowered)
      case Some(role) => Ok(role)
      case None =>
        match NumberOf(budget)
        case None => Err(TypeError)
        case Some(b) => Ok(if b > 100000.0 then CEO else CFO)
  }

  /** The approver rule: the first table key inside the lowercased request_type, else the budget threshold. */
  lemma ApproverRule(content: Entries, requestType: string, budget: real)
    requires GetS(content, "request_type", PStr("")) == PStr(requestType)
    requires NumberOf(GetS(content, "budget", PInt(0))) == Some(budget)
    ensures var hit := FirstContained(ApproverTable, Strings.Lower(requestType));
            GetApprover(content) == Ok(if hit.Some? then hit.value else if budget > 100000.0 then CEO else CFO)
    ensures Strings.Contains(Strings.Lower(requestType), "budget") ==> GetApprover(content) == Ok(CFO)
  {
    var lowered := Strings.Lower(requestType);
    if Strings.Contains(lowered, "budget") {
      assert ApproverTable[0] == ("budget", CFO);
    }
  }

  /** The topic table scan of `_route_collaboration`; both `.lower()` calls are made lazily, as Python's `or` does. */
  function TopicScan(tab: Table, topic: Obj, contentType: Obj): (r: Result<Role, PyError>)
  {
    if tab == [] then Ok(Operations)
    else
      match LowerOf(topic)
      case Err(e) => Err(e)
      case Ok(t) =>
        if Strings.Contains(t, tab[0].0) then Ok(tab[0].1)
        else match LowerOf(contentType)
          case Err(e) => Err(e)
          case Ok(c) => if Strings.Contains(c, tab[0].0) then Ok(tab[0].1) else TopicScan(tab[1..], topic, contentType)
  }

  lemma {:induction false} TopicScanStrings(tab: Table, topic: string, contentType: string)
    ensures TopicScan(tab, PStr(topic), PStr(contentType))
               == Ok(FirstEither(tab, Strings.Lower(topic), Strings.Lower(contentType)))
  {
    if tab != [] {
      TopicScanStrings(tab[1..], topic, contentType);
    }
  }

  /** The role of the first entry whose key occurs in `a` or in `b`; OPERATIONS when none does. */
  function FirstEither(tab: Table, a: string, b: string): (r: Role)
    ensures (forall i :: 0 <= i < |tab| ==> !Strings.Contains(a, tab[i].0) && !Strings.Contains(b, tab[i].0)) ==> r == Operations
    ensures forall i :: 0 <= i < |tab| && (Strings.Contains(a, tab[i].0) || Strings.Contains(b, tab[i].0))
              && (forall j :: 0 <= j < i ==> !Strings.Contains(a, tab[j].0) && !Strings.Contains(b, tab[j].0))
              ==> r == tab[i].1
  {
    if tab == [] then Operations
    else if Strings.Contains(a, tab[0].0) || Strings.Contains(b, tab[0].0) then tab[0].1
    else
      var r := FirstEither(tab[1..], a, b);
      assert forall i :: 1 <= i < |tab| ==> tab[i] == tab[1..][i - 1];
      r
  }

  /** `_route_collaboration`: a truthy requires_role hint is returned as it is; otherwise the topic table. */
  function RouteCollaboration(content: Entries): (r: Result<Obj, PyError>)
    ensures Truthy(GetS(content, "requires_role", PNone)) ==> r == Ok(GetS(content, "requires_role", PNone))
  {
    var hint := GetS(content, "requires_role", PNone);
    if Truthy(hint) then Ok(hint)
    else
      match TopicScan(TopicTable, GetS(content, "topic", PStr("")), GetS(content, "type", PStr("")))
      case Err(e) => Err(e)
      case Ok(role) => Ok(RoleObj(role))
  }

  /** Without a hint, the first topic key found in the lowercased topic or type picks the role; OPERATIONS otherwise. */
  lemma CollaborationRule(content: Entries, topic: string, contentType: string)
    requires !Truthy(GetS(content, "requires_role", PNone))
    requires GetS(content, "topic", PStr("")) == PStr(topic)
    requires GetS(content, "type", PStr("")) == PStr(contentType)
    ensures RouteCollaboration(content) == Ok(RoleObj(FirstEither(TopicTable, Strings.Lower(topic), Strings.Lower(contentType))))
  {
    TopicScanStrings(TopicTable, topic, contentType);
  }

  /** `route`. */
  function Route(m: Message): (r: Result<Obj, PyError>)
    ensures m.messageType == StatusReport ==> r == Ok(RoleObj(CEO))
    ensures m.messageType in {Alert, ApprovalResponse} ==> r == Ok(RoleObj(Operations))
    ensures m.messageType == DataResponse ==> r == Ok(GetS(m.content, "requester", RoleObj(m.sender)))
  {
    match m.messageType
    case TaskAssignment =>
      var task := GetS(m.content, "task", PDict([]));
      if task.PDict? then Ok(GetS(task.entries, "assigned_to", GetS(m.content, "assignee", RoleObj(RD))))
      else Err(AttributeError)
    case StatusReport => Ok(RoleObj(CEO))
    case DataRequest =>
      (match RouteDataRequest(m.content) case Err(e) => Err(e) case Ok(role) => Ok(RoleObj(role)))
    case DataResponse => Ok(GetS(m.content, "requester", RoleObj(m.sender)))
    case ApprovalRequest =>
      (match GetApprover(m.content) case Err(e) => Err(e) case Ok(role) => Ok(RoleObj(role)))
    case Alert => Ok(RoleObj(Operations))
    case Collaboration => RouteCollaboration(m.content)
    case ApprovalResponse => Ok(RoleObj(Operations))
  }

  /** Task assignment: `content.task.assigned_to`, else `content.assignee`, else RD. */
  lemma RouteTaskAssignment(m: Message, task: Entries)
    requires m.messageType == TaskAssignment
    requires GetS(m.content, "task", PDict([])) == PDict(task)
    ensures HasKey(task, PStr("assigned_to")) ==> Route(m) == Ok(GetS(task, "assigned_to", PNone))
    ensures (!HasKey(task, PStr("assigned_to")) && HasKey(m.content, PStr("assignee")))
              ==> Route(m) == Ok(GetS(m.content, "assignee", PNone))
    ensures (!HasKey(task, PStr("assigned_to")) && !HasKey(m.content, PStr("assignee")))
              ==> Route(m) == Ok(RoleObj(RD))
  {
  }

  /** A message built by `create_task_assignment` goes to the task's assignee, whatever recipient it names. */
  lemma RouteCreatedAssignment(assigner: Role, assignee: Role, t: Task, now: nat, id: string)
    ensures Route(CreateTaskAssignment(assigner, assignee, t, now, id)) == Ok(RoleObj(t.assignedTo))
  {
    var m := CreateTaskAssignment(assigner, assignee, t, now, id);
    var d := StrDict(TaskAttrs(t));
    var kvs := TaskAttrs(t);
    assert kvs[3] == ("assigned_to", RoleObj(t.assignedTo));
    assert |kvs[0].0| != 11 && |kvs[1].0| != 11 && kvs[2].0[0] != 'a';
    LookupStrDict(kvs, "assigned_to", 3);
  }

  /** Alerts and status reports built by the protocol reach Operations and the CEO even when they name another recipient. */
  lemma RouteCreatedAlertAndReport(sender: Role, kind: string, text: string, severity: Priority,
                                   to: Option<Role>, report: Entries, now: nat, id: string)
    ensures Route(CreateAlert(sender, kind, text, severity, to, now, id)) == Ok(RoleObj(Operations))
    ensures Route(CreateStatusReport(sender, report, to, now, id)) == Ok(RoleObj(CEO))
  {
  }

  /** `needs_approval`. */
  function NeedsApproval(m: Message): (r: Result<bool, PyError>)
    ensures m.messageType != ApprovalRequest ==> r == Ok(false)
    ensures forall s :: m.messageType == ApprovalRequest && GetS(m.content, "request_type", PStr("")) == PStr(s)
              ==> r == Ok(Strings.ContainsAny(Strings.Lower(s), ApprovalKeywords))
  {
    if m.messageType != ApprovalRequest then Ok(false)
    else
      match LowerOf(GetS(m.content, "request_type", PStr("")))
      case Err(e) => Err(e)
      case Ok(lowered) => Ok(Strings.ContainsAny(lowered, ApprovalKeywords))
  }

  /** `should_alert`: every alert; a status report whose string status holds an alert keyword; nothing else. */
  function ShouldAlert(m: Message): (r: bool)
    ensures m.messageType == Alert ==> r
    ensures m.messageType !in {Alert, StatusReport} ==> !r
    ensures m.messageType == StatusReport ==>
              (r <==> exists s :: GetS(m.content, "status", PStr("")) == PStr(s)
                                 && Strings.ContainsAny(Strings.Lower(s), AlertKeywords))
  {
    if m.messageType == Alert then true
    else if m.messageType != StatusReport then false
    else
      var status := GetS(m.content, "status", PStr(""));
      var lowered := if status.PStr? then Strings.Lower(status.s) else "";
      assert !Strings.ContainsAny("", AlertKeywords) by {
        forall k | 0 <= k < |AlertKeywords| ensures !Strings.Contains("", AlertKeywords[k]) {
          assert |AlertKeywords[k]| > 0;
        }
      }
      Strings.ContainsAny(lowered, AlertKeywords)
  }

  /** `get_approval_path`. */
  function ApprovalPath(t: MessageType): (r: seq<Role>)
    ensures t == ApprovalRequest ==> r == [CFO, CEO]
    ensures t != ApprovalRequest ==> r == []
  {
    if t != ApprovalRequest then [] else [CFO, CEO]
  }
}
