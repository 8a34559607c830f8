// src/agents/hr.py: the HR agent's threshold scorers, agent selection for
// task assignment and its two approval decisions. Its reasoning calls are not
// modelled.
module Hr {
  import opened Wrappers
  import opened Py
  import opened Base
  import opened Strings

  // ---------------------------------------------------------------------------
  // Performance scorers
  // ---------------------------------------------------------------------------

  /** `_determine_performance_tier`. */
  function PerformanceTier(score: real): (r: string)
    ensures r == "excellent" <==> score >= 0.9
    ensures r == "good" <==> 0.75 <= score < 0.9
    ensures r == "needs_improvement" <==> 0.5 <= score < 0.75
    ensures r == "critical" <==> score < 0.5
  {
    if score >= 0.9 then "excellent"
    else if score >= 0.75 then "good"
    else if score >= 0.5 then "needs_improvement"
    else "critical"
  }

  function TierRank(tier: string): nat
  {
    if tier == "excellent" then 3 else if tier == "good" then 2 else if tier == "needs_improvement" then 1 else 0
  }

  /** A higher score never lands in a lower tier. */
  lemma TierMonotone(a: real, b: real)
    requires a <= b
    ensures TierRank(PerformanceTier(a)) <= TierRank(PerformanceTier(b))
  {
  }

  /** `_calculate_error_rate`: the failed share of the completed tasks; 0 when there are none. */
  function ErrorRate(st: AgentState): (r: real)
    ensures 0.0 <= r <= 1.0
    ensures st.completedTasks == [] ==> r == 0.0
    ensures r == FailedCount(st.completedTasks) as real / (if |st.completedTasks| > 1 then |st.completedTasks| else 1) as real
  {
    var total := |st.completedTasks|;
    FailedCount(st.completedTasks) as real / (if total > 1 then total else 1) as real
  }

  /** The seconds each completed task took, summed. */
  function DurationTotal(tasks: seq<Task>): int
  {
    if tasks == [] then 0 else (tasks[0].updatedAt - tasks[0].createdAt) + DurationTotal(tasks[1..])
  }

  /** `_calculate_response_time_score`: banded by the mean time a completed task took. */
  function ResponseTimeScore(st: AgentState): (r: real)
    ensures st.completedTasks == [] ==> r == 0.8
    ensures st.completedTasks != [] ==>
      var avg := DurationTotal(st.completedTasks) as real / |st.completedTasks| as real;
      (r == 1.0 <==> avg < 3600.0) && (r == 0.8 <==> 3600.0 <= avg < 86400.0) && (r == 0.5 <==> avg >= 86400.0)
  {
    if st.completedTasks == [] then 0.8
    else
      var avg := DurationTotal(st.completedTasks) as real / |st.completedTasks| as real;
      if avg < 3600.0 then 1.0 else if avg < 86400.0 then 0.8 else 0.5
  }

  // ---------------------------------------------------------------------------
  // Agent selection
  // ---------------------------------------------------------------------------

  /** The roles whose workload is below 0.8, in dict order. */
  function Available(agents: AgentsView): (r: seq<Role>)
    ensures |r| <= |agents|
    decreases |agents|
  {
    if agents == [] then []
    else
      var last := agents[|agents| - 1];
      Available(agents[..|agents| - 1]) + (if last.1.workload < 0.8 then [last.0] else [])
  }

  /** A role is available exactly when one of its entries has a workload below 0.8. */
  lemma {:induction false} AvailableIff(agents: AgentsView, role: Role)
    ensures role in Available(agents) <==> exists i :: 0 <= i < |agents| && agents[i].0 == role && agents[i].1.workload < 0.8
    decreases |agents|
  {
    if agents != [] {
      var init := agents[..|agents| - 1];
      var last := agents[|agents| - 1];
      AvailableIff(init, role);
      assert role in Available(agents) <==> role in Available(init) || (last.0 == role && last.1.workload < 0.8);
      if role in Available(init) {
        var i :| 0 <= i < |init| && init[i].0 == role && init[i].1.workload < 0.8;
        assert agents[i] == init[i];
      }
      if exists i :: 0 <= i < |agents| && agents[i].0 == role && agents[i].1.workload < 0.8 {
        var i :| 0 <= i < |agents| && agents[i].0 == role && agents[i].1.workload < 0.8;
        if i < |init| {
          assert init[i] == agents[i];
        }
      }
    }
  }

  /** `_get_available_agents`. */
  method GetAvailableAgents(agents: AgentsView) returns (available: seq<Role>)
    ensures available == Available(agents)
  {
    available := [];
    var i := 0;
    while i < |agents|
      invariant 0 <= i <= |agents|
      invariant available == Available(agents[..i])
    {
      assert agents[..i + 1][..i] == agents[..i];
      if agents[i].1.workload < 0.8 {
        available := available + [agents[i].0];
      }
      i := i + 1;
    }
    assert agents[..i] == agents;
  }

  /** How many capabilities contain one of the task's words. */
  function CapabilityMatches(caps: seq<string>, words: seq<string>): (n: nat)
    ensures n <= |caps|
    decreases |caps|
  {
    if caps == [] then 0
    else CapabilityMatches(caps[..|caps| - 1], words) + (if ContainsAny(caps[|caps| - 1], words) then 1 else 0)
  }

  /** The score `_find_best_agent_for_task` gives an agent it knows. */
  function AgentScore(st: AgentState, words: seq<string>): (r: real)
    ensures 0.5 <= r <= 0.85 + 0.1 * |st.capabilities| as real
  {
    0.5 + 0.1 * CapabilityMatches(st.capabilities, words) as real
    + (if st.workload < 0.5 then 0.2 else 0.0)
    + (if |st.completedTasks| > |st.currentTasks| then 0.15 else 0.0)
  }

  /** The score of a role, None when the agents dict does not know it. */
  function ScoreFor(agents: AgentsView, role: Role, words: seq<string>): (r: Option<real>)
    ensures r.Some? ==> r.value >= 0.5
  {
    match AgentOf(agents, role)
    case None => None
    case Some(st) => Some(AgentScore(st, words))
  }

  /** The best match and best score after the first candidates; a strictly higher score takes over. */
  function BestScan(candidates: seq<Role>, agents: AgentsView, words: seq<string>): (Option<Role>, real)
    decreases |candidates|
  {
    if candidates == [] then (None, 0.0)
    else
      var prev := BestScan(candidates[..|candidates| - 1], agents, words);
      var last := candidates[|candidates| - 1];
      var s := ScoreFor(agents, last, words);
      if s.Some? && s.value > prev.1 then (Some(last), s.value) else prev
  }

  /**
   * The best match is a candidate the agents dict knows, with the highest
   * score, and no earlier candidate reaches that score; there is none only
   * when no candidate is known.
   */
  lemma BestScanSpec(candidates: seq<Role>, agents: AgentsView, words: seq<string>)
    ensures var (best, score) := BestScan(candidates, agents, words);
      (best.None? <==> forall i :: 0 <= i < |candidates| ==> ScoreFor(agents, candidates[i], words).None?)
      && (best.None? ==> score == 0.0)
      && (forall i :: 0 <= i < |candidates| && ScoreFor(agents, candidates[i], words).Some? ==>
            ScoreFor(agents, candidates[i], words).value <= score)
      && (best.Some? ==>
            exists i :: 0 <= i < |candidates| && candidates[i] == best.value
              && ScoreFor(agents, candidates[i], words) == Some(score)
              && forall j :: 0 <= j < i && ScoreFor(agents, candidates[j], words).Some? ==>
                   ScoreFor(agents, candidates[j], words).value < score)
  {
    BestScanNone(candidates, agents, words);
    BestScanMax(candidates, agents, words);
    BestScanFirst(candidates, agents, words);
  }

  /** One step of `BestScan`, written out. */
  lemma BestScanStep(candidates: seq<Role>, agents: AgentsView, words: seq<string>)
    requires candidates != []
    ensures var prev, s := BestScan(candidates[..|candidates| - 1], agents, words), ScoreFor(agents, candidates[|candidates| - 1], words);
      BestScan(candidates, agents, words) == if s.Some? && s.value > prev.1 then (Some(candidates[|candidates| - 1]), s.value) else prev
  {
  }

  lemma {:induction false} BestScanNone(candidates: seq<Role>, agents: AgentsView, words: seq<string>)
    ensures var (best, score) := BestScan(candidates, agents, words);
      (best.None? <==> forall i :: 0 <= i < |candidates| ==> ScoreFor(agents, candidates[i], words).None?)
      && (best.None? ==> score == 0.0) && (best.Some? ==> score >= 0.5)
    decreases |candidates|
  {
    if candidates != [] {
      var n := |candidates| - 1;
      var init := candidates[..n];
      BestScanNone(init, agents, words);
      BestScanStep(candidates, agents, words);
      assert forall i :: 0 <= i < n ==> init[i] == candidates[i];
    }
  }

  lemma {:induction false} BestScanMax(candidates: seq<Role>, agents: AgentsView, words: seq<string>)
    ensures var score := BestScan(candidates, agents, words).1;
      forall i :: 0 <= i < |candidates| && ScoreFor(agents, candidates[i], words).Some? ==>
        ScoreFor(agents, candidates[i], words).value <= score
    decreases |candidates|
  {
    if candidates != [] {
      var n := |candidates| - 1;
      var init := candidates[..n];
      BestScanMax(init, agents, words);
      BestScanStep(candidates, agents, words);
      assert forall i :: 0 <= i < n ==> init[i] == candidates[i];
    }
  }

  lemma {:induction false} BestScanFirst(candidates: seq<Role>, agents: AgentsView, words: seq<string>)
    ensures var (best, score) := BestScan(candidates, agents, words);
      best.Some? ==>
        exists i :: 0 <= i < |candidates| && candidates[i] == best.value
          && ScoreFor(agents, candidates[i], words) == Some(score)
          && forall j :: 0 <= j < i && ScoreFor(agents, candidates[j], words).Some? ==>
               ScoreFor(agents, candidates[j], words).value < score
    decreases |candidates|
  {
    if candidates != [] {
      var n := |candidates| - 1;
      var init := candidates[..n];
      var prev := BestScan(init, agents, words);
      var s := ScoreFor(agents, candidates[n], words);
      BestScanStep(candidates, agents, words);
      if s.Some? && s.value > prev.1 {
        BestScanMax(init, agents, words);
        assert forall j :: 0 <= j < n ==> init[j] == candidates[j];
      } else if prev.0.Some? {
        BestScanFirst(init, agents, words);
        var i :| 0 <= i < |init| && init[i] == prev.0.value && ScoreFor(agents, init[i], words) == Some(prev.1)
                 && forall j :: 0 <= j < i && ScoreFor(agents, init[j], words).Some? ==>
                      ScoreFor(agents, init[j], words).value < prev.1;
        assert forall j :: 0 <= j <= i ==> init[j] == candidates[j];
      }
    }
  }

  /** The capability loop of `_find_best_agent_for_task`. */
  method ScoreAgent(st: AgentState, words: seq<string>) returns (score: real)
    ensures score == AgentScore(st, words)
  {
    score := 0.5;
    var i := 0;
    while i < |st.capabilities|
      invariant 0 <= i <= |st.capabilities|
      invariant score == 0.5 + 0.1 * CapabilityMatches(st.capabilities[..i], words) as real
    {
      assert st.capabilities[..i + 1][..i] == st.capabilities[..i];
      if ContainsAny(st.capabilities[i], words) {
        score := score + 0.1;
      }
      i := i + 1;
    }
    assert st.capabilities[..i] == st.capabilities;
    if st.workload < 0.5 {
      score := score + 0.2;
    }
    if |st.completedTasks| > |st.currentTasks| {
      score := score + 0.15;
    }
  }

  /** `_find_best_agent_for_task`: candidates the agents dict does not know are passed over. */
  method FindBestAgent(candidates: seq<Role>, agents: AgentsView, words: seq<string>) returns (best: Option<Role>)
    ensures best == BestScan(candidates, agents, words).0
  {
    best := None;
    var bestScore := 0.0;
    var i := 0;
    while i < |candidates|
      invariant 0 <= i <= |candidates|
      invariant (best, bestScore) == BestScan(candidates[..i], agents, words)
    {
      assert candidates[..i + 1][..i] == candidates[..i];
      var st := AgentOf(agents, candidates[i]);
      if st.Some? {
        var score := ScoreAgent(st.value, words);
        if score > bestScore {
          best, bestScore := Some(candidates[i]), score;
        }
      }
      i := i + 1;
    }
    assert candidates[..i] == candidates;
  }

  /** Every available role is known to the agents dict it was drawn from. */
  lemma AvailableKnown(agents: AgentsView, role: Role)
    requires role in Available(agents)
    ensures AgentOf(agents, role).Some?
  {
    AvailableIff(agents, role);
  }

  /** With at least one available agent some agent is always chosen. */
  lemma BestOfAvailable(agents: AgentsView, words: seq<string>)
    requires Available(agents) != []
    ensures BestScan(Available(agents), agents, words).0.Some?
  {
    var avail := Available(agents);
    AvailableKnown(agents, avail[0]);
    BestScanSpec(avail, agents, words);
  }

  // ---------------------------------------------------------------------------
  // Task assignment
  // ---------------------------------------------------------------------------

  /** One record of `_assign_tasks`. */
  datatype Assignment =
    | Deferred(taskId: Obj)
    | Assigned(taskId: Obj, agent: Role, confidence: real)
    | PendingReview(taskId: Obj)

  /** Whether the `Task(...)` built from the request dict can be constructed: roles, priority and deadline must parse. */
  function TaskFieldsOk(task: Entries): (r: Option<PyError>)
  {
    match RoleByValue(GetS(task, "assigned_to", PStr("")))
    case Err(e) => Some(e)
    case Ok(_) =>
      match RoleByValue(GetS(task, "assigned_by", PStr("")))
      case Err(e) => Some(e)
      case Ok(_) =>
        match PriorityByValue(GetS(task, "priority", PStr("medium")))
        case Err(e) => Some(e)
        case Ok(_) =>
          match DeadlineOf(GetS(task, "deadline", PNone))
          case Err(e) => Some(e)
          case Ok(_) => None
  }

  /** `task.title.lower().split() + task.description.lower().split()`. */
  function TaskWords(title: Obj, description: Obj): (r: Result<seq<string>, PyError>)
    ensures r.Ok? <==> title.PStr? && description.PStr?
  {
    match LowerOf(title)
    case Err(e) => Err(e)
    case Ok(t) => match LowerOf(description) case Err(e) => Err(e) case Ok(d) => Ok(Words(t) + Words(d))
  }

  /**
   * `_assign_tasks`: a task that cannot be built fails; with no available
   * agent the task is deferred; otherwise it goes to the best-scoring
   * available agent with confidence 0.85.
   */
  method AssignTasks(task: Entries, agents: AgentsView, freshId: string) returns (r: Result<Assignment, PyError>)
    ensures TaskFieldsOk(task).Some? ==> r == Err(TaskFieldsOk(task).value)
    ensures TaskFieldsOk(task).None? && Available(agents) == [] ==> r == Ok(Deferred(GetS(task, "task_id", PStr(freshId))))
    ensures TaskFieldsOk(task).None? && Available(agents) != [] ==>
      var words := TaskWords(GetS(task, "title", PStr("")), GetS(task, "description", PStr("")));
      (words.Err? ==> r == Err(AttributeError))
      && (words.Ok? ==> r.Ok? && r.value.Assigned? && r.value.taskId == GetS(task, "task_id", PStr(freshId))
                        && Some(r.value.agent) == BestScan(Available(agents), agents, words.value).0
                        && r.value.confidence == 0.85)
    ensures r.Ok? ==> !r.value.PendingReview?
  {
    var taskId := GetS(task, "task_id", PStr(freshId));
    var fieldsError := TaskFieldsOk(task);
    if fieldsError.Some? {
      return Err(fieldsError.value);
    }
    var available := GetAvailableAgents(agents);
    if available == [] {
      return Ok(Deferred(taskId));
    }
    var words := TaskWords(GetS(task, "title", PStr("")), GetS(task, "description", PStr("")));
    if words.Err? {
      return Err(words.error);
    }
    var best := FindBestAgent(available, agents, words.value);
    BestOfAvailable(agents, words.value);
    if best.Some? {
      return Ok(Assigned(taskId, best.value, 0.85));
    }
    return Ok(PendingReview(taskId));
  }

  // ---------------------------------------------------------------------------
  // Approval decisions
  // ---------------------------------------------------------------------------

  /** `_assess_reconfiguration_risk`. */
  function RiskLevel(targets: nat): (r: string)
    ensures r == "high" <==> targets > 10
    ensures r == "medium" <==> 5 < targets <= 10
    ensures r == "low" <==> targets <= 5
  {
    if targets > 10 then "high" else if targets > 5 then "medium" else "low"
  }

  /**
   * `_process_role_reconfiguration_request`: approved unless the plan's
   * target count makes the risk high. A plan that is not a dict, or targets
   * without a length, fail.
   */
  function ReconfigurationApproved(request: Entries): (r: Result<bool, PyError>)
    ensures var plan := GetS(request, "plan", PDict([]));
      (!plan.PDict? ==> r == Err(AttributeError))
      && (plan.PDict? ==> match LenOf(GetS(plan.entries, "targets", PList([])))
            case Err(e) => r == Err(e)
            case Ok(n) => r == Ok(n <= 10))
  {
    var plan := GetS(request, "plan", PDict([]));
    if !plan.PDict? then Err(AttributeError)
    else match LenOf(GetS(plan.entries, "targets", PList([])))
      case Err(e) => Err(e)
      case Ok(n) => Ok(RiskLevel(n) != "high")
  }

  /**
   * The budget of a resource-allocation plan, after the checks the
   * assessment makes on the way: the plan must be a dict, the budget a number
   * and, for a positive budget, the projected benefits a dict whose expected
   * return is a number.
   */
  function AllocationBudget(request: Entries): (r: Result<real, PyError>)
    ensures var plan := GetS(request, "allocation_plan", PDict([]));
      r.Ok? ==> plan.PDict? && NumberOf(GetS(plan.entries, "budget", PInt(0))) == Some(r.value)
  {
    var plan := GetS(request, "allocation_plan", PDict([]));
    if !plan.PDict? then Err(AttributeError)
    else match NumberOf(GetS(plan.entries, "budget", PInt(0)))
      case None => Err(TypeError)
      case Some(budget) =>
        if budget <= 0.0 then Ok(budget)
        else
          var benefits := GetS(plan.entries, "projected_benefits", PDict([]));
          if !benefits.PDict? then Err(AttributeError)
          else if NumberOf(GetS(benefits.entries, "expected_return", PInt(0))).None? then Err(TypeError)
          else Ok(budget)
  }

  /** `_align_with_strategic_goals`: 0.8 for a positive budget with strategic goals set, else 0.5. */
  function AlignmentScore(budget: real, goals: Obj): (r: real)
    ensures r == 0.8 || r == 0.5
    ensures r == 0.8 <==> budget > 0.0 && Truthy(goals)
  {
    if budget > 0.0 && Truthy(goals) then 0.8 else 0.5
  }

  /** `_process_resource_allocation_request` as written: the 0..1 alignment score is compared with 70. */
  function ResourceApprovedAsWritten(request: Entries, goals: Obj): (r: Result<bool, PyError>)
    ensures r.Ok? <==> AllocationBudget(request).Ok?
  {
    match AllocationBudget(request)
    case Err(e) => Err(e)
    case Ok(budget) => Ok(AlignmentScore(budget, goals) >= 70.0)
  }

  /** No resource-allocation request is ever approved. */
  lemma ResourceNeverApproved(request: Entries, goals: Obj)
    ensures ResourceApprovedAsWritten(request, goals) != Ok(true)
  {
  }

  /** The decision with the threshold on the score's own scale (0.7, the "good" line of the alignment). */
  function ResourceApproved(request: Entries, goals: Obj): (r: Result<bool, PyError>)
    ensures r.Ok? <==> AllocationBudget(request).Ok?
  {
    match AllocationBudget(request)
    case Err(e) => Err(e)
    case Ok(budget) => Ok(AlignmentScore(budget, goals) >= 0.7)
  }

  /** A well-formed request is approved exactly when its budget is positive and the company has strategic goals. */
  lemma ResourceApprovedIff(request: Entries, goals: Obj)
    requires AllocationBudget(request).Ok?
    ensures ResourceApproved(request, goals) == Ok(AllocationBudget(request).value > 0.0 && Truthy(goals))
  {
  }
}
