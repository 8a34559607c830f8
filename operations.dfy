// src/agents/operations.py: the operations agent's circuit-breaker table,
// alert handling, anomaly and bottleneck detectors and the health scores of
// its system report. The reasoning calls of the agent are not modelled.
module Operations {
  import opened Wrappers
  import opened Py
  import opened Base

  // ---------------------------------------------------------------------------
  // Circuit breakers
  // ---------------------------------------------------------------------------

  datatype CircuitState = Closed | Open | HalfOpen

  /** One breaker dict: state, failure count, last failure, when it opened, its timeout. */
  datatype Breaker = Breaker(state: CircuitState, failureCount: int, lastFailure: Option<nat>,
                             openedAt: Option<nat>, timeout: int)

  /** What `_implement_circuit_breaker` reports. */
  datatype BreakerReport =
    | ToHalfOpen
    | StillOpen
    | Opened(failureCount: int)
    | Normal(state: CircuitState, failureCount: int)

  /** The breaker an unknown circuit is taken to have. */
  function DefaultBreaker(timeout: int): Breaker
  {
    Breaker(Closed, 0, None, None, timeout)
  }

  /**
   * One call of `_implement_circuit_breaker` on breaker `cur`: the breaker to
   * store (None when nothing is stored) and the report. An open breaker whose
   * opening lies `timeout` seconds back moves to half-open; any other breaker
   * whose failure count reached the threshold opens.
   */
  function BreakerStep(cur: Breaker, threshold: int, timeout: int, now: nat): (r: (Option<Breaker>, BreakerReport))
    ensures cur.state == Open ==>
      (r.0.Some? <==> cur.openedAt.Some? && now - cur.openedAt.value >= timeout)
    ensures cur.state == Open && r.0.Some? ==> r.0.value == cur.(state := HalfOpen, lastFailure := None) && r.1 == ToHalfOpen
    ensures cur.state == Open && r.0.None? ==> r.1 == StillOpen
    ensures cur.state != Open ==> (r.0.Some? <==> cur.failureCount >= threshold)
    ensures cur.state != Open && r.0.Some? ==> r.0.value == cur.(state := Open, openedAt := Some(now)) && r.1 == Opened(cur.failureCount)
    ensures cur.state != Open && r.0.None? ==> r.1 == Normal(cur.state, cur.failureCount)
  {
    if cur.state == Open then
      if cur.openedAt.Some? && now - cur.openedAt.value >= timeout then
        (Some(cur.(state := HalfOpen, lastFailure := None)), ToHalfOpen)
      else (None, StillOpen)
    else if cur.failureCount >= threshold then
      (Some(cur.(state := Open, openedAt := Some(now))), Opened(cur.failureCount))
    else (None, Normal(cur.state, cur.failureCount))
  }

  /** No call ever closes a breaker or changes its failure count. */
  lemma BreakerNeverCloses(cur: Breaker, threshold: int, timeout: int, now: nat)
    ensures var r := BreakerStep(cur, threshold, timeout, now);
      r.0.Some? ==> r.0.value.state != Closed && r.0.value.failureCount == cur.failureCount && r.0.value.timeout == cur.timeout
  {
  }

  /** An unknown circuit has no failures, so it is stored only when the threshold is at most 0, and then opened. */
  lemma UnknownCircuit(threshold: int, timeout: int, now: nat)
    ensures var r := BreakerStep(DefaultBreaker(timeout), threshold, timeout, now);
      (r.0.Some? <==> threshold <= 0)
      && (r.0.Some? ==> r.0.value == Breaker(Open, 0, None, Some(now), timeout) && r.1 == Opened(0))
      && (r.0.None? ==> r.1 == Normal(Closed, 0))
  {
  }

  // ---------------------------------------------------------------------------
  // Alerts
  // ---------------------------------------------------------------------------

  /** One anomaly-registry entry written by `_handle_alert`. */
  datatype AnomalyRecord = AnomalyRecord(detectedAt: nat, severity: Obj, message: Obj, status: string)

  /**
   * `_process_alert`: a critical alert goes to the CEO at critical priority
   * under a "critical_" type, a high one to the CTO at high priority; any
   * other severity becomes a status report to the CTO.
   */
  function ProcessAlert(alert: Entries, now: nat, id: string): (m: Message)
    ensures var severity := GetS(alert, "severity", PStr("medium"));
      (severity == PStr("critical") ==>
         m.messageType == Alert && m.recipient == CEO && m.priority == Critical
         && Lookup(m.content, PStr("alert_type")) == Some(PStr("critical_" + Show(GetS(alert, "alert_type", PStr("unknown"))))))
      && (severity == PStr("high") ==> m.messageType == Alert && m.recipient == CTO && m.priority == High)
      && (severity != PStr("critical") && severity != PStr("high") ==> m.messageType == StatusReport && m.recipient == CTO)
    ensures m.sender == Operations
  {
    var alertType := GetS(alert, "alert_type", PStr("unknown"));
    var text := GetS(alert, "message", PStr(""));
    var severity := GetS(alert, "severity", PStr("medium"));
    if severity == PStr("critical") then
      CreateAlert(Operations, "critical_" + Show(alertType), "ALERT: " + Show(text), Critical, Some(CEO), now, id)
    else if severity == PStr("high") then
      CreateAlert(Operations, Show(alertType), "URGENT: " + Show(text), High, Some(CTO), now, id)
    else
      CreateMessage(Operations, CTO, StatusReport,
                    StrDict([("type", PStr("alert_processed")), ("alert_type", alertType),
                             ("status", PStr("acknowledged")), ("message", text)]), Medium, now, id)
  }

  // ---------------------------------------------------------------------------
  // Detectors
  // ---------------------------------------------------------------------------

  /** One entry of the anomaly list. */
  datatype Anomaly = Anomaly(kind: string, agent: Role, value: real, threshold: real, severity: string)

  /** Seconds since the agent was last active. */
  function Idle(st: AgentState, now: nat): int
  {
    now - st.lastActive
  }

  /** The reference condition for each per-agent anomaly kind. */
  predicate Fires(kind: string, role: Role, st: AgentState, now: nat)
  {
    role != Operations
    && ((kind == "high_workload" && st.workload > 0.95)
        || (kind == "inactive_agent_with_load" && Idle(st, now) > 300 && st.workload > 0.5))
  }

  /** The anomalies the first loop of `_detect_anomalies` records for one agent, in order. */
  function AgentAnomalies(role: Role, st: AgentState, now: nat): (r: seq<Anomaly>)
    ensures forall j :: 0 <= j < |r| ==> r[j].agent == role
  {
    if role == Operations then []
    else
      (if st.workload > 0.95 then [Anomaly("high_workload", role, st.workload, 0.95, "high")] else [])
      + (if Idle(st, now) > 300 && st.workload > 0.5
         then [Anomaly("inactive_agent_with_load", role, Idle(st, now) as real, 300.0, "critical")] else [])
  }

  /** The anomaly the second loop records for one agent: more than 5 assumed failures. */
  function FailureAnomaly(st: AgentState): (r: seq<Anomaly>)
    ensures r != [] <==> |st.completedTasks| as real * 0.1 > 5.0
    ensures |r| <= 1 && forall j :: 0 <= j < |r| ==> r[j].kind == "high_failure_rate"
  {
    var failed := |st.completedTasks| as real * 0.1;
    if failed > 5.0 then [Anomaly("high_failure_rate", st.role, failed, 5.0, "medium")] else []
  }

  function WorkloadScan(agents: AgentsView, now: nat): seq<Anomaly>
    decreases |agents|
  {
    if agents == [] then []
    else
      var last := agents[|agents| - 1];
      WorkloadScan(agents[..|agents| - 1], now) + AgentAnomalies(last.0, last.1, now)
  }

  function FailureScan(agents: AgentsView): seq<Anomaly>
    decreases |agents|
  {
    if agents == [] then [] else FailureScan(agents[..|agents| - 1]) + FailureAnomaly(agents[|agents| - 1].1)
  }

  predicate HasAnomaly(xs: seq<Anomaly>, kind: string, role: Role)
  {
    exists j :: 0 <= j < |xs| && xs[j].kind == kind && xs[j].agent == role
  }

  lemma HasAnomalyAppend(xs: seq<Anomaly>, ys: seq<Anomaly>, kind: string, role: Role)
    ensures HasAnomaly(xs + ys, kind, role) <==> HasAnomaly(xs, kind, role) || HasAnomaly(ys, kind, role)
  {
    var zs := xs + ys;
    if HasAnomaly(xs, kind, role) {
      var j :| 0 <= j < |xs| && xs[j].kind == kind && xs[j].agent == role;
      assert zs[j] == xs[j];
    }
    if HasAnomaly(zs, kind, role) {
      var j :| 0 <= j < |zs| && zs[j].kind == kind && zs[j].agent == role;
      if j >= |xs| {
        assert ys[j - |xs|] == zs[j];
      }
    }
    if HasAnomaly(ys, kind, role) {
      var j :| 0 <= j < |ys| && ys[j].kind == kind && ys[j].agent == role;
      assert zs[|xs| + j] == ys[j];
    }
  }

  /** One agent raises an anomaly of a kind exactly when that kind's condition holds for it. */
  lemma AgentAnomaliesIff(r0: Role, st: AgentState, now: nat, kind: string, role: Role)
    ensures HasAnomaly(AgentAnomalies(r0, st, now), kind, role) <==> r0 == role && Fires(kind, role, st, now)
  {
    var xs := AgentAnomalies(r0, st, now);
    assert |"high_workload"| != |"inactive_agent_with_load"|;
    if r0 == role && Fires(kind, role, st, now) {
      if kind == "high_workload" && st.workload > 0.95 {
        assert xs[0].kind == kind;
      } else {
        assert xs[|xs| - 1].kind == kind;
      }
    }
  }

  /** `_detect_anomalies`, first loop: a role has an anomaly of a kind iff the condition holds for one of its entries. */
  lemma {:induction false} WorkloadScanIff(agents: AgentsView, now: nat, kind: string, role: Role)
    ensures HasAnomaly(WorkloadScan(agents, now), kind, role)
        <==> exists i :: 0 <= i < |agents| && agents[i].0 == role && Fires(kind, role, agents[i].1, now)
    decreases |agents|
  {
    if agents != [] {
      var init := agents[..|agents| - 1];
      var last := agents[|agents| - 1];
      WorkloadScanIff(init, now, kind, role);
      HasAnomalyAppend(WorkloadScan(init, now), AgentAnomalies(last.0, last.1, now), kind, role);
      AgentAnomaliesIff(last.0, last.1, now, kind, role);
      FiresSnoc(agents, init, now, kind, role);
    }
  }

  /** Some agent of a non-empty list fires exactly when one before the last does or the last one does. */
  lemma FiresSnoc(agents: AgentsView, init: AgentsView, now: nat, kind: string, role: Role)
    requires agents != [] && init == agents[..|agents| - 1]
    ensures (exists i :: 0 <= i < |agents| && agents[i].0 == role && Fires(kind, role, agents[i].1, now))
        <==> (exists i :: 0 <= i < |init| && init[i].0 == role && Fires(kind, role, init[i].1, now))
             || (agents[|agents| - 1].0 == role && Fires(kind, role, agents[|agents| - 1].1, now))
  {
    if exists i :: 0 <= i < |agents| && agents[i].0 == role && Fires(kind, role, agents[i].1, now) {
      var i :| 0 <= i < |agents| && agents[i].0 == role && Fires(kind, role, agents[i].1, now);
      if i < |init| {
        assert init[i] == agents[i];
      }
    }
    if exists i :: 0 <= i < |init| && init[i].0 == role && Fires(kind, role, init[i].1, now) {
      var i :| 0 <= i < |init| && init[i].0 == role && Fires(kind, role, init[i].1, now);
      assert agents[i] == init[i];
    }
  }

  /** `_detect_anomalies`, second loop: one high-failure-rate entry per agent with more than 50 completed tasks, in order. */
  lemma {:induction false} FailureScanCount(agents: AgentsView)
    ensures |FailureScan(agents)| == |set i | 0 <= i < |agents| && |agents[i].1.completedTasks| > 50|
    ensures forall j :: 0 <= j < |FailureScan(agents)| ==> FailureScan(agents)[j].kind == "high_failure_rate"
    decreases |agents|
  {
    if agents != [] {
      var n := |agents| - 1;
      var init := agents[..n];
      FailureScanCount(init);
      BigSetSnoc(agents);
      var prev: seq<Anomaly>, last: seq<Anomaly> := FailureScan(init), FailureAnomaly(agents[n].1);
      assert FailureScan(agents) == prev + last;
      assert |agents[n].1.completedTasks| as real * 0.1 > 5.0 <==> |agents[n].1.completedTasks| > 50;
      forall j | 0 <= j < |prev + last|
        ensures (prev + last)[j].kind == "high_failure_rate"
      {
        if j < |prev| {
          assert (prev + last)[j] == prev[j];
        } else {
          assert (prev + last)[j] == last[j - |prev|];
        }
      }
    }
  }

  /** The agents with more than 50 completed tasks, counted with and without the last one. */
  lemma BigSetSnoc(agents: AgentsView)
    requires agents != []
    ensures var n := |agents| - 1;
      |set i | 0 <= i < |agents| && |agents[i].1.completedTasks| > 50|
      == |set i | 0 <= i < n && |agents[..n][i].1.completedTasks| > 50| + (if |agents[n].1.completedTasks| > 50 then 1 else 0)
  {
    var n := |agents| - 1;
    var init := agents[..n];
    var big := set i | 0 <= i < |agents| && |agents[i].1.completedTasks| > 50;
    var bigInit := set i | 0 <= i < n && |init[i].1.completedTasks| > 50;
    assert forall i :: 0 <= i < n ==> init[i] == agents[i];
    if |agents[n].1.completedTasks| > 50 {
      assert big == bigInit + {n};
    } else {
      assert big == bigInit;
    }
  }

  /** One entry of the bottleneck list. */
  datatype Bottleneck = Bottleneck(kind: string, agent: Role, amount: real, threshold: real, severity: string)

  /** What `_detect_bottlenecks` records for one agent: a long task queue, then a high workload. */
  function AgentBottlenecks(role: Role, st: AgentState): (r: seq<Bottleneck>)
    ensures role == Operations ==> r == []
    ensures role != Operations ==>
      |r| == (if |st.currentTasks| > 20 then 1 else 0) + (if st.workload > 0.9 then 1 else 0)
    ensures forall j :: 0 <= j < |r| ==> r[j].agent == role
    ensures forall j :: 0 <= j < |r| && r[j].kind == "workload_bottleneck" ==>
      (r[j].severity == "high" <==> st.workload > 0.95)
  {
    if role == Operations then []
    else
      (if |st.currentTasks| > 20
       then [Bottleneck("task_queue_bottleneck", role, |st.currentTasks| as real, 20.0, "high")] else [])
      + (if st.workload > 0.9
         then [Bottleneck("workload_bottleneck", role, st.workload, 0.9, if st.workload > 0.95 then "high" else "medium")]
         else [])
  }

  function BottleneckScan(agents: AgentsView): seq<Bottleneck>
    decreases |agents|
  {
    if agents == [] then []
    else
      var last := agents[|agents| - 1];
      BottleneckScan(agents[..|agents| - 1]) + AgentBottlenecks(last.0, last.1)
  }

  /** The operations agent reports no bottleneck about itself. */
  lemma {:induction false} BottlenecksSkipOperations(agents: AgentsView)
    ensures forall j :: 0 <= j < |BottleneckScan(agents)| ==> BottleneckScan(agents)[j].agent != Operations
    decreases |agents|
  {
    if agents != [] {
      BottlenecksSkipOperations(agents[..|agents| - 1]);
      var last := agents[|agents| - 1];
      var xs := BottleneckScan(agents[..|agents| - 1]);
      var ys := AgentBottlenecks(last.0, last.1);
      assert forall j :: 0 <= j < |ys| ==> ys[j].agent == last.0 != Operations;
      assert forall j :: |xs| <= j < |xs + ys| ==> (xs + ys)[j] == ys[j - |xs|];
    }
  }

  // ---------------------------------------------------------------------------
  // System health
  // ---------------------------------------------------------------------------

  /** The share of an agent's tasks it has completed; 1.0 when it has none. */
  function CompletionRate(current: nat, completed: nat): (r: real)
    ensures 0.0 <= r <= 1.0
    ensures current + completed == 0 ==> r == 1.0
    ensures current == 0 ==> r == 1.0
  {
    if current + completed > 0 then
      var t := (current + completed) as real;
      var q := completed as real / t;
      assert q * t == completed as real;
      assert (1.0 - q) * t == current as real;
      q
    else 1.0
  }

  /** The agent health score: deductions for inactivity, high and very high workload, and a low completion rate. */
  function HealthScore(active: bool, workload: real, rate: real): (r: int)
    ensures 15 <= r <= 100
    ensures r == 100 <==> active && workload <= 0.8 && rate >= 0.7
    ensures r == 15 <==> !active && workload > 0.95 && rate < 0.7
  {
    100 - (if active then 0 else 20) - (if workload > 0.8 then 15 else 0)
        - (if workload > 0.95 then 30 else 0) - (if rate < 0.7 then 20 else 0)
  }

  function AgentHealth(st: AgentState, now: nat): (r: int)
    ensures 15 <= r <= 100
  {
    HealthScore(Idle(st, now) < 3600, st.workload, CompletionRate(|st.currentTasks|, |st.completedTasks|))
  }

  /** The health scores of every agent but the operations agent, in order. */
  function HealthScores(agents: AgentsView, now: nat): (r: seq<int>)
    ensures forall j :: 0 <= j < |r| ==> 15 <= r[j] <= 100
    decreases |agents|
  {
    if agents == [] then []
    else
      var last := agents[|agents| - 1];
      HealthScores(agents[..|agents| - 1], now) + (if last.0 == Operations then [] else [AgentHealth(last.1, now)])
  }

  function Sum(xs: seq<int>): int
    decreases |xs|
  {
    if xs == [] then 0 else Sum(xs[..|xs| - 1]) + xs[|xs| - 1]
  }

  lemma {:induction false} SumBounds(xs: seq<int>, lo: int, hi: int)
    requires forall j :: 0 <= j < |xs| ==> lo <= xs[j] <= hi
    ensures |xs| * lo <= Sum(xs) <= |xs| * hi
    decreases |xs|
  {
    if xs != [] {
      var init, n := xs[..|xs| - 1], |xs| - 1;
      SumBounds(init, lo, hi);
      assert Sum(xs) == Sum(init) + xs[n];
      assert |xs| * lo == n * lo + lo && |xs| * hi == n * hi + hi;
    }
  }

  /** The overall health score: the mean agent score, and 0 when there is no agent to score. */
  function OverallHealth(scores: seq<int>): (r: real)
  {
    Sum(scores) as real / (if |scores| > 1 then |scores| else 1) as real
  }

  lemma OverallHealthBounds(scores: seq<int>)
    requires forall j :: 0 <= j < |scores| ==> 15 <= scores[j] <= 100
    ensures scores == [] ==> OverallHealth(scores) == 0.0
    ensures scores != [] ==> 15.0 <= OverallHealth(scores) <= 100.0
  {
    SumBounds(scores, 15, 100);
    if scores != [] {
      MeanBounds(Sum(scores) as real, |scores| as real, 15.0, 100.0);
    }
  }

  lemma MeanBounds(total: real, n: real, lo: real, hi: real)
    requires n > 0.0 && n * lo <= total <= n * hi
    ensures lo <= total / n <= hi
  {
    var q := total / n;
    assert q * n == total;
  }

  /** The task-queue pressure band. */
  function QueuePressure(size: nat): (r: string)
    ensures r == "low" <==> size < 10
    ensures r == "medium" <==> 10 <= size < 50
    ensures r == "high" <==> size >= 50
  {
    if size < 10 then "low" else if size < 50 then "medium" else "high"
  }

  // ---------------------------------------------------------------------------
  // The agent
  // ---------------------------------------------------------------------------

  /** One pass of the first loop of `_detect_anomalies`, for one agent. */
  method CheckAgent(role: Role, st: AgentState, now: nat) returns (found: seq<Anomaly>)
    ensures found == AgentAnomalies(role, st, now)
  {
    found := [];
    if role != Operations {
      if st.workload > 0.95 {
        found := found + [Anomaly("high_workload", role, st.workload, 0.95, "high")];
      }
      var idle := now - st.lastActive;
      if idle > 300 && st.workload > 0.5 {
        found := found + [Anomaly("inactive_agent_with_load", role, idle as real, 300.0, "critical")];
      }
    }
  }

  /** One pass of the loop of `_detect_bottlenecks`, for one agent. */
  method CheckBottlenecks(role: Role, st: AgentState) returns (found: seq<Bottleneck>)
    ensures found == AgentBottlenecks(role, st)
  {
    found := [];
    if role != Operations {
      if |st.currentTasks| > 20 {
        found := found + [Bottleneck("task_queue_bottleneck", role, |st.currentTasks| as real, 20.0, "high")];
      }
      if st.workload > 0.9 {
        found := found + [Bottleneck("workload_bottleneck", role, st.workload, 0.9, if st.workload > 0.95 then "high" else "medium")];
      }
    }
  }

  /** The first loop of `_detect_anomalies`: workload and inactivity, skipping the operations agent. */
  method ScanWorkload(agents: AgentsView, now: nat) returns (first: seq<Anomaly>)
    ensures first == WorkloadScan(agents, now)
  {
    first := [];
    var i := 0;
    while i < |agents|
      invariant 0 <= i <= |agents|
      invariant first == WorkloadScan(agents[..i], now)
    {
      var found := CheckAgent(agents[i].0, agents[i].1, now);
      assert agents[..i + 1][..i] == agents[..i];
      assert WorkloadScan(agents[..i + 1], now) == WorkloadScan(agents[..i], now) + found;
      first := first + found;
      i := i + 1;
    }
    assert agents[..i] == agents;
  }

  /** The second loop of `_detect_anomalies`: the failure estimate of every agent. */
  method ScanFailures(agents: AgentsView) returns (second: seq<Anomaly>)
    ensures second == FailureScan(agents)
  {
    second := [];
    var i := 0;
    while i < |agents|
      invariant 0 <= i <= |agents|
      invariant second == FailureScan(agents[..i])
    {
      assert agents[..i + 1][..i] == agents[..i];
      var failed := |agents[i].1.completedTasks| as real * 0.1;
      if failed > 5.0 {
        second := second + [Anomaly("high_failure_rate", agents[i].1.role, failed, 5.0, "medium")];
      }
      i := i + 1;
    }
    assert agents[..i] == agents;
  }

  class OperationsAgent {
    var circuitBreakers: map<string, Breaker>
    var anomalyRegistry: map<Obj, AnomalyRecord>
    var taskQueue: seq<Task>

    constructor ()
      ensures circuitBreakers == map[] && anomalyRegistry == map[] && taskQueue == []
    {
      circuitBreakers := map[];
      anomalyRegistry := map[];
      taskQueue := [];
    }

    /** `_implement_circuit_breaker`: the breaker of the circuit, or a closed default, is stepped; it is stored only on a transition. */
    method ImplementCircuitBreaker(name: string, threshold: int, timeout: int, now: nat) returns (report: BreakerReport)
      modifies this
      ensures var cur := if name in old(circuitBreakers) then old(circuitBreakers)[name] else DefaultBreaker(timeout);
        var step := BreakerStep(cur, threshold, timeout, now);
        report == step.1
        && circuitBreakers == (if step.0.Some? then old(circuitBreakers)[name := step.0.value] else old(circuitBreakers))
      ensures anomalyRegistry == old(anomalyRegistry) && taskQueue == old(taskQueue)
    {
      var cur := if name in circuitBreakers then circuitBreakers[name] else DefaultBreaker(timeout);
      if cur.state == Open {
        if cur.openedAt.Some? && now - cur.openedAt.value >= timeout {
          circuitBreakers := circuitBreakers[name := cur.(state := HalfOpen, lastFailure := None)];
          return ToHalfOpen;
        }
        return StillOpen;
      }
      if cur.failureCount >= threshold {
        circuitBreakers := circuitBreakers[name := cur.(state := Open, openedAt := Some(now))];
        return Opened(cur.failureCount);
      }
      return Normal(cur.state, cur.failureCount);
    }

    /** Whether the breaker stored for an alert type is open; only string keys can name a circuit. */
    function BreakerOpen(alertType: Obj): (b: bool)
      reads this
      ensures b <==> alertType.PStr? && alertType.s in circuitBreakers && circuitBreakers[alertType.s].state == Open
    {
      alertType.PStr? && alertType.s in circuitBreakers && circuitBreakers[alertType.s].state == Open
    }

    /**
     * `_handle_alert`: the registry entry for the alert type is overwritten
     * with status "new"; an open breaker for that type answers with a
     * circuit_breaker_active alert instead of processing the alert. An
     * unhashable alert type cannot be a dict key (TypeError).
     */
    method HandleAlert(alert: Entries, now: nat, id: string) returns (r: Result<Message, PyError>)
      modifies this
      ensures var alertType := GetS(alert, "alert_type", PStr("unknown"));
        Unhashable(alertType) ==> r == Err(TypeError) && anomalyRegistry == old(anomalyRegistry)
      ensures var alertType := GetS(alert, "alert_type", PStr("unknown"));
        !Unhashable(alertType) ==>
          anomalyRegistry == old(anomalyRegistry)[alertType := AnomalyRecord(now, GetS(alert, "severity", PStr("medium")),
                                                                             GetS(alert, "message", PStr("")), "new")]
          && r.Ok?
          && (BreakerOpen(alertType) ==>
                r.value == CreateAlert(Operations, "circuit_breaker_active",
                                       "Circuit breaker is open for " + Show(alertType) + ". Automatic recovery initiated.",
                                       High, None, now, id))
          && (!BreakerOpen(alertType) ==> r.value == ProcessAlert(alert, now, id))
      ensures circuitBreakers == old(circuitBreakers) && taskQueue == old(taskQueue)
    {
      var alertType := GetS(alert, "alert_type", PStr("unknown"));
      if Unhashable(alertType) {
        return Err(TypeError);
      }
      var severity := GetS(alert, "severity", PStr("medium"));
      anomalyRegistry := anomalyRegistry[alertType := AnomalyRecord(now, severity, GetS(alert, "message", PStr("")), "new")];
      if BreakerOpen(alertType) {
        return Ok(CreateAlert(Operations, "circuit_breaker_active",
                              "Circuit breaker is open for " + Show(alertType) + ". Automatic recovery initiated.",
                              High, None, now, id));
      }
      return Ok(ProcessAlert(alert, now, id));
    }

    /** `_detect_anomalies`: the two loops over the agents dict. */
    method DetectAnomalies(agents: AgentsView, now: nat) returns (r: seq<Anomaly>)
      ensures r == WorkloadScan(agents, now) + FailureScan(agents)
    {
      var first := ScanWorkload(agents, now);
      var second := ScanFailures(agents);
      r := first + second;
    }

    /** `_detect_bottlenecks`. */
    method DetectBottlenecks(agents: AgentsView) returns (r: seq<Bottleneck>)
      ensures r == BottleneckScan(agents)
    {
      r := [];
      var i := 0;
      while i < |agents|
        invariant 0 <= i <= |agents|
        invariant r == BottleneckScan(agents[..i])
      {
        var found := CheckBottlenecks(agents[i].0, agents[i].1);
        assert agents[..i + 1][..i] == agents[..i];
        assert BottleneckScan(agents[..i + 1]) == BottleneckScan(agents[..i]) + found;
        r := r + found;
        i := i + 1;
      }
      assert agents[..i] == agents;
    }

    /** The circuits whose breaker is open. */
    function OpenCircuits(): (r: set<string>)
      reads this
      ensures forall k :: k in r <==> k in circuitBreakers && circuitBreakers[k].state == Open
    {
      set k | k in circuitBreakers && circuitBreakers[k].state == Open
    }

    /**
     * The scoring loop of `_monitor_system_health`: per-agent scores, their
     * mean, the queue pressure, whether the anomaly registry needs attention
     * and the number of open breakers.
     */
    method MonitorHealth(agents: AgentsView, now: nat)
      returns (scores: seq<int>, overall: real, pressure: string, anomalyStatus: string, openBreakers: nat)
      ensures scores == HealthScores(agents, now)
      ensures overall == OverallHealth(scores)
      ensures pressure == QueuePressure(|taskQueue|)
      ensures anomalyStatus == "normal" <==> anomalyRegistry == map[]
      ensures anomalyStatus == "normal" || anomalyStatus == "attention_required"
      ensures openBreakers == |OpenCircuits()|
    {
      scores := [];
      var i := 0;
      while i < |agents|
        invariant 0 <= i <= |agents|
        invariant scores == HealthScores(agents[..i], now)
      {
        assert agents[..i + 1][..i] == agents[..i];
        if agents[i].0 != Operations {
          var st := agents[i].1;
          var current, completed := |st.currentTasks|, |st.completedTasks|;
          var rate := if current + completed > 0 then completed as real / (current + completed) as real else 1.0;
          var score := 100;
          if now - st.lastActive >= 3600 { score := score - 20; }
          if st.workload > 0.8 { score := score - 15; }
          if st.workload > 0.95 { score := score - 30; }
          if rate < 0.7 { score := score - 20; }
          scores := scores + [score];
        }
        i := i + 1;
      }
      assert agents[..i] == agents;
      overall := Sum(scores) as real / (if |scores| > 1 then |scores| else 1) as real;
      pressure := if |taskQueue| < 10 then "low" else if |taskQueue| < 50 then "medium" else "high";
      anomalyStatus := if |anomalyRegistry| == 0 then "normal" else "attention_required";
      openBreakers := |set k | k in circuitBreakers && circuitBreakers[k].state == Open|;
    }
  }
}
