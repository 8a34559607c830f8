// src/workflow/delegate.py: capability / workload scoring and the choice of
// the agent a task is delegated to.
module Delegate {
  import opened Wrappers
  import opened Py
  import opened Base

  /** `PRIORITY_WEIGHTS.get(value, 1.0)`, keyed by the priority's string value. */
  function PriorityWeight(value: string): (w: real)
    ensures value == "critical" ==> w == 1.5
    ensures value == "high" ==> w == 1.2
    ensures value == "medium" ==> w == 1.0
    ensures value == "low" ==> w == 0.8
    ensures value !in {"critical", "high", "medium", "low"} ==> w == 1.0
    ensures 0.8 <= w <= 1.5
  {
    if value == "critical" then 1.5
    else if value == "high" then 1.2
    else if value == "medium" then 1.0
    else if value == "low" then 0.8
    else 1.0
  }

  /** The two fields the delegation code reads that the base Task record lacks. */
  datatype Demand = Demand(priority: Priority, requiredCapabilities: seq<string>, estimatedWorkload: Option<real>)

  /** `task.estimated_workload or 0.1`: a missing or zero estimate counts as 0.1. */
  function EffectiveEstimate(e: Option<real>): (r: real)
    ensures e.None? || e.value == 0.0 ==> r == 0.1
    ensures e.Some? && e.value != 0.0 ==> r == e.value
    ensures (e.None? || e.value >= 0.0) ==> r >= 0.0
  {
    if e.None? || e.value == 0.0 then 0.1 else e.value
  }

  lemma SubsetCard<T>(a: set<T>, b: set<T>)
    requires a <= b
    ensures |a| <= |b|
  {
    if a != {} {
      var x :| x in a;
      SubsetCard(a - {x}, b - {x});
    }
  }

  lemma Ratio(n: nat, m: nat)
    requires n <= m && m > 0
    ensures 0.0 <= (n as real) / (m as real) <= 1.0
    ensures (n as real) / (m as real) == 1.0 <==> n == m
  {
    var q, nr, mr := (n as real) / (m as real), n as real, m as real;
    assert q * mr == nr;
    assert (1.0 - q) * mr == mr - nr;
    if n == m {
      assert q == mr / mr;
    }
  }

  /** Every required capability is present iff the intersection is as large as the requirement set. */
  lemma Covered(required: seq<string>, has: seq<string>)
    ensures var req, hv := (set c | c in required), (set c | c in has);
      req * hv <= req && (|req * hv| == |req| <==> forall c :: c in required ==> c in has)
  {
    var req, hv := (set c | c in required), (set c | c in has);
    SubsetCard(req * hv, req);
    if forall c :: c in required ==> c in has {
      assert req * hv == req;
    } else {
      var x :| x in required && x !in has;
      assert x in req;
      SubsetCard(req * hv, req - {x});
    }
  }

  /** `_calculate_capability_match`: 1.0 when nothing is required, else the covered fraction. */
  function CapabilityMatch(required: seq<string>, has: seq<string>): (r: real)
    ensures 0.0 <= r <= 1.0
    ensures required == [] ==> r == 1.0
    ensures r == 1.0 <==> forall c :: c in required ==> c in has
  {
    var req := set c | c in required;
    var hv := set c | c in has;
    if req == {} then
      assert forall c :: c in required ==> c in req;
      1.0
    else
      Covered(required, has);
      SubsetCard(req * hv, req);
      Ratio(|req * hv|, |req|);
      (|req * hv| as real) / (|req| as real)
  }

  lemma CapabilityExample()
    ensures CapabilityMatch(["python", "api", "ml"], ["python", "api"]) == 2.0 / 3.0
  {
    var req := set c | c in ["python", "api", "ml"];
    var hv := set c | c in ["python", "api"];
    assert req == {"python", "api", "ml"};
    assert hv == {"python", "api"};
    assert req * hv == {"python", "api"};
  }

  /** `_calculate_workload_balance`: max(0, 1 - (workload + estimate * weight)). */
  function WorkloadBalance(workload: real, d: Demand): (r: real)
    ensures r >= 0.0
    ensures r == 0.0 <==> workload + EffectiveEstimate(d.estimatedWorkload) * PriorityWeight(PriorityValue(d.priority)) >= 1.0
    ensures workload >= 0.0 && (d.estimatedWorkload.None? || d.estimatedWorkload.value >= 0.0) ==> r <= 1.0
  {
    var load := workload + EffectiveEstimate(d.estimatedWorkload) * PriorityWeight(PriorityValue(d.priority));
    if 1.0 - load > 0.0 then 1.0 - load else 0.0
  }

  lemma WorkloadExample(d: Demand)
    requires d.priority == High && d.estimatedWorkload == Some(0.3)
    ensures WorkloadBalance(0.4, d) == 0.24
  {
  }

  /** The final score of one agent: 0.5 capability + 0.3 workload + 0.2 history, history always 1.0. */
  function FinalScore(d: Demand, a: AgentState): (r: real)
    ensures a.workload >= 0.0 && (d.estimatedWorkload.None? || d.estimatedWorkload.value >= 0.0) ==> 0.2 <= r <= 1.0
  {
    0.5 * CapabilityMatch(d.requiredCapabilities, a.capabilities) + 0.3 * WorkloadBalance(a.workload, d) + 0.2 * 1.0
  }

  predicate UniqueRoles(agents: seq<(Role, AgentState)>)
  {
    forall i, j :: 0 <= i < j < |agents| ==> agents[i].0 != agents[j].0
  }

  /** Position `k` holds a maximal final score and no earlier position reaches it. */
  predicate IsFirstBest(d: Demand, agents: seq<(Role, AgentState)>, k: int)
  {
    0 <= k < |agents|
    && (forall j :: 0 <= j < |agents| ==> FinalScore(d, agents[j].1) <= FinalScore(d, agents[k].1))
    && (forall j :: 0 <= j < k ==> FinalScore(d, agents[j].1) < FinalScore(d, agents[k].1))
  }

  /**
   * `delegate_task`: ValueError on an empty agent dict; otherwise the first agent,
   * in dict order, whose final score is maximal.
   */
  method DelegateTask(d: Demand, agents: seq<(Role, AgentState)>) returns (r: Result<Role, PyError>)
    requires UniqueRoles(agents)
    ensures agents == [] <==> r == Err(ValueError)
    ensures r.Ok? ==>
      exists k :: IsFirstBest(d, agents, k) && agents[k].0 == r.value
  {
    if agents == [] {
      return Err(ValueError);
    }
    var finals: seq<real> := [];
    var i := 0;
    while i < |agents|
      invariant 0 <= i <= |agents| && |finals| == i
      invariant forall j :: 0 <= j < i ==> finals[j] == FinalScore(d, agents[j].1)
    {
      finals := finals + [FinalScore(d, agents[i].1)];
      i := i + 1;
    }
    var best := 0;
    i := 1;
    while i < |agents|
      invariant 1 <= i <= |agents| && 0 <= best < i
      invariant forall j :: 0 <= j < i ==> finals[j] <= finals[best]
      invariant forall j :: 0 <= j < best ==> finals[j] < finals[best]
    {
      if finals[i] > finals[best] {
        best := i;
      }
      i := i + 1;
    }
    assert IsFirstBest(d, agents, best);
    r := Ok(agents[best].0);
  }
}
