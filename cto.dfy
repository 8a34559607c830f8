// src/agents/cto.py: the deployment readiness score and decision, the
// architecture review (whose fixed analysis always approves), the table
// lookups for windows and timelines, and the CTO's task, alert and approval
// routing. Its reasoning calls are oracles.
module Cto {
  import opened Wrappers
  import opened Py
  import opened Base
  import opened Strings
  import Utils

  // ---------------------------------------------------------------------------
  // Deployment
  // ---------------------------------------------------------------------------

  /** `details.get(key, False)` is truthy. */
  predicate Has(details: Entries, key: string)
  {
    Truthy(GetS(details, key, PBool(false)))
  }

  /**
   * `_assess_deployment_readiness`: 100, less 30 without completed testing,
   * 20 without updated documentation, 25 without a rollback plan and 25
   * without performance testing, never below 0.
   */
  function Readiness(details: Entries): (r: int)
    ensures 0 <= r <= 100
    ensures r == 100 <==> Has(details, "testing_completed") && Has(details, "documentation_updated")
                          && Has(details, "rollback_plan") && Has(details, "performance_testing")
  {
    var score := 100
      - (if Has(details, "testing_completed") then 0 else 30)
      - (if Has(details, "documentation_updated") then 0 else 20)
      - (if Has(details, "rollback_plan") then 0 else 25)
      - (if Has(details, "performance_testing") then 0 else 25);
    if score > 0 then score else 0
  }

  /** A score of 80 leaves room only for missing documentation. */
  lemma ReadinessEighty(details: Entries)
    ensures Readiness(details) >= 80 <==>
      Has(details, "testing_completed") && Has(details, "rollback_plan") && Has(details, "performance_testing")
  {
  }

  /**
   * The `approved` value of `_evaluate_deployment_request`: `score >= 80 and
   * rollback and security`, which is the security flag itself when the first
   * two hold.
   */
  function DeploymentApproval(details: Entries): (r: Obj)
    ensures Truthy(r) <==> Readiness(details) >= 80 && Has(details, "rollback_plan") && Has(details, "security_scan_completed")
  {
    if Readiness(details) < 80 then PBool(false)
    else if !Has(details, "rollback_plan") then PBool(false)
    else GetS(details, "security_scan_completed", PBool(false))
  }

  /** An approved deployment has testing, a rollback plan, performance testing and a security scan. */
  lemma ApprovalNeedsChecks(details: Entries)
    requires Truthy(DeploymentApproval(details))
    ensures Has(details, "testing_completed") && Has(details, "rollback_plan")
    ensures Has(details, "performance_testing") && Has(details, "security_scan_completed")
  {
    ReadinessEighty(details);
  }

  const HighRiskWindow := "周末凌晨2-4点"
  const MediumRiskWindow := "工作日晚10-12点"
  const LowRiskWindow := "随时（需监控）"

  /** `_suggest_deployment_window` by `risk_level` (medium when absent). */
  function DeploymentWindow(details: Entries): (r: string)
    ensures var risk := GetS(details, "risk_level", PStr("medium"));
      (r == HighRiskWindow <==> risk == PStr("high"))
      && (r == MediumRiskWindow <==> risk == PStr("medium"))
      && (r == LowRiskWindow <==> risk != PStr("high") && risk != PStr("medium"))
  {
    var risk := GetS(details, "risk_level", PStr("medium"));
    assert |HighRiskWindow| == 8 && |MediumRiskWindow| == 10 && |LowRiskWindow| == 7;
    if risk == PStr("high") then HighRiskWindow
    else if risk == PStr("medium") then MediumRiskWindow
    else LowRiskWindow
  }

  /** The assessment dict of a deployment request. */
  function DeploymentAssessment(details: Entries): Entries
  {
    [(PStr("readiness_score"), PInt(Readiness(details))),
             (PStr("rollback_plan"), PBool(Has(details, "rollback_plan"))),
             (PStr("performance_impact"), PStr(if Has(details, "performance_testing") then "minimal" else "unknown")),
             (PStr("security_checks"), GetS(details, "security_scan_completed", PBool(false)))]
  }

  /** The approval response carrying `decision` under "decision", after the request id. */
  function DecisionMessage(content: Entries, sender: Role, decision: Obj, extras: Entries, now: nat, id: string): (m: Message)
    ensures m.messageType == ApprovalResponse && m.sender == CTO && m.recipient == sender
    ensures Lookup(m.content, PStr("decision")) == Some(decision)
  {
    var c := [(PStr("request_id"), Get(content, PStr("request_id"), PNone)), (PStr("decision"), decision)] + extras;
    assert |"request_id"| == 10 && |"decision"| == 8;
    assert Lookup(c[1..], PStr("decision")) == Some(decision);
    CreateMessage(CTO, sender, ApprovalResponse, c, Medium, now, id)
  }

  /**
   * `_evaluate_deployment_request`: the decision holds the approval, the
   * assessment and the suggested window. The deployment details must be a
   * dict.
   */
  function EvaluateDeploymentRequest(content: Entries, sender: Role, now: nat, id: string): (r: Result<Message, PyError>)
    ensures var details := GetS(content, "deployment_details", PDict([]));
      (r.Ok? <==> details.PDict?)
      && (r.Ok? ==> (r.value.messageType == ApprovalResponse && r.value.recipient == sender
            && exists d :: Lookup(r.value.content, PStr("decision")) == Some(PDict(d))
                 && Lookup(d, PStr("approved")) == Some(DeploymentApproval(details.entries))))
  {
    var details := GetS(content, "deployment_details", PDict([]));
    if !details.PDict? then Err(AttributeError)
    else
      var d := [(PStr("approved"), DeploymentApproval(details.entries)),
                        (PStr("assessment"), PDict(DeploymentAssessment(details.entries))),
                        (PStr("deployment_window"), PStr(DeploymentWindow(details.entries)))];
      var m := DecisionMessage(content, sender, PDict(d), [], now, id);
      assert Lookup(d, PStr("approved")) == Some(DeploymentApproval(details.entries));
      Ok(m)
  }

  // ---------------------------------------------------------------------------
  // Architecture review
  // ---------------------------------------------------------------------------

  /** `_assess_migration_complexity`, which ignores the proposal. */
  const MigrationComplexity := "medium"

  /** `_identify_architecture_risks`, which ignores the proposal. */
  const ArchitectureRisks := ["数据迁移复杂性", "过渡期间的服务中断"]

  /** How many risk factors mention "critical"; a factor that is not text has no `lower`. */
  function CriticalCount(risks: seq<Obj>): (r: Result<nat, PyError>)
    ensures r.Ok? <==> forall i :: 0 <= i < |risks| ==> risks[i].PStr?
    ensures r == Ok(0) <==> forall i :: 0 <= i < |risks| ==> risks[i].PStr? && !Contains(Lower(risks[i].s), "critical")
    decreases |risks|
  {
    if risks == [] then Ok(0)
    else match LowerOf(risks[0])
      case Err(e) => Err(e)
      case Ok(low) =>
        var rest := CriticalCount(risks[1..]);
        assert forall i :: 1 <= i < |risks| ==> risks[i] == risks[1..][i - 1];
        match rest
        case Err(e) => Err(e)
        case Ok(n) => Ok((if Contains(low, "critical") then 1 else 0) + n)
  }

  /** `_should_approve_architecture_change`: not of high complexity, and no critical risk. */
  function ArchitectureApproved(complexity: Obj, risks: seq<Obj>): (r: Result<bool, PyError>)
    ensures complexity == PStr("high") ==> r == Ok(false)
    ensures complexity != PStr("high") ==> (r == Ok(true) <==> CriticalCount(risks) == Ok(0))
    ensures complexity != PStr("high") ==> (r.Err? <==> CriticalCount(risks).Err?)
  {
    if complexity == PStr("high") then Ok(false)
    else match CriticalCount(risks)
      case Err(e) => Err(e)
      case Ok(n) => Ok(n == 0)
  }

  /** No text without the letter c contains "critical". */
  lemma WithoutC(s: string)
    requires forall i :: 0 <= i < |s| ==> s[i] != 'c'
    ensures !Contains(s, "critical")
  {
    var p := "critical";
    assert |p| == 8 && p[0] == 'c';
    forall i | 0 <= i <= |s| - |p|
      ensures !OccursAt(s, p, i)
    {
      assert s[i..i + |p|][0] == s[i];
    }
  }

  /** Lower-casing leaves characters above z alone. */
  lemma LowerKeeps(s: string)
    requires forall i :: 0 <= i < |s| ==> s[i] > 'z'
    ensures Lower(s) == s
  {
  }

  /** Neither fixed risk factor mentions "critical". */
  lemma RisksNotCritical()
    ensures forall i :: 0 <= i < |ArchitectureRisks| ==> !Contains(Lower(ArchitectureRisks[i]), "critical")
  {
    var r0, r1 := ArchitectureRisks[0], ArchitectureRisks[1];
    assert forall j :: 0 <= j < |r0| ==> r0[j] > 'z';
    assert forall j :: 0 <= j < |r1| ==> r1[j] > 'z';
    assert |ArchitectureRisks| == 2;
    forall i | 0 <= i < |ArchitectureRisks|
      ensures !Contains(Lower(ArchitectureRisks[i]), "critical")
    {
      if i == 0 {
        HighNotCritical(r0);
      } else {
        HighNotCritical(r1);
      }
    }
  }

  /** Text made of characters above z, lower-cased, never contains "critical". */
  lemma HighNotCritical(s: string)
    requires forall i :: 0 <= i < |s| ==> s[i] > 'z'
    ensures !Contains(Lower(s), "critical")
  {
    LowerKeeps(s);
    WithoutC(s);
  }

  /** The fixed analysis: every proposed architecture change is approved. */
  lemma ArchitectureAlwaysApproved()
    ensures ArchitectureApproved(PStr(MigrationComplexity), StrList(ArchitectureRisks)) == Ok(true)
  {
    RisksNotCritical();
    assert |MigrationComplexity| != |"high"|;
    ClearListApproved(MigrationComplexity, ArchitectureRisks);
  }

  /** Risk texts none of which mentions "critical" approve a change that is not of high complexity. */
  lemma ClearListApproved(complexity: string, rs: seq<string>)
    requires complexity != "high"
    requires forall i :: 0 <= i < |rs| ==> !Contains(Lower(rs[i]), "critical")
    ensures ArchitectureApproved(PStr(complexity), StrList(rs)) == Ok(true)
  {
    var risks := StrList(rs);
    forall i | 0 <= i < |risks|
      ensures risks[i].PStr? && !Contains(Lower(risks[i].s), "critical")
    {
      assert risks[i] == PStr(rs[i]);
    }
    ApprovedWhenClear(PStr(complexity), risks);
  }

  /** A change that is not of high complexity and has no critical risk factor is approved. */
  lemma ApprovedWhenClear(complexity: Obj, risks: seq<Obj>)
    requires complexity != PStr("high")
    requires forall i :: 0 <= i < |risks| ==> risks[i].PStr? && !Contains(Lower(risks[i].s), "critical")
    ensures ArchitectureApproved(complexity, risks) == Ok(true)
  {
  }

  /** `_estimate_implementation_timeline` by the proposal's complexity (medium when absent). */
  function ImplementationTimeline(arch: Entries): (r: Result<string, PyError>)
    ensures var c := GetS(arch, "complexity", PStr("medium"));
      (Unhashable(c) <==> r.Err?)
      && (c == PStr("low") ==> r == Ok("2-4周"))
      && (c == PStr("medium") ==> r == Ok("1-2个月"))
      && (c == PStr("high") ==> r == Ok("3-6个月"))
      && (!Unhashable(c) && c != PStr("low") && c != PStr("medium") && c != PStr("high") ==> r == Ok("2-3个月"))
  {
    var c := GetS(arch, "complexity", PStr("medium"));
    if Unhashable(c) then Err(TypeError)
    else if c == PStr("low") then Ok("2-4周")
    else if c == PStr("medium") then Ok("1-2个月")
    else if c == PStr("high") then Ok("3-6个月")
    else Ok("2-3个月")
  }

  /** `_get_current_architecture`. */
  function CurrentArchitecture(): Entries
  {
    [(PStr("pattern"), PStr("微服务")), (PStr("communication"), PStr("REST API + 消息队列")),
             (PStr("database"), PStr("PostgreSQL + Redis")), (PStr("deployment"), PStr("Docker + Kubernetes")),
             (PStr("monitoring"), PStr("Prometheus + Grafana"))]
  }

  /** `_analyze_architecture_impact`, which ignores the proposal. */
  function ArchitectureImpact(): Entries
  {
    [(PStr("complexity_change"), PStr("medium")), (PStr("migration_risk"), PStr("low")),
             (PStr("performance_impact"), PStr("positive")), (PStr("maintenance_impact"), PStr("reduced"))]
  }

  /** The fixed resource estimate of `_calculate_resource_needs`. */
  function ResourceNeeds(): Entries
  {
    [(PStr("developers"), PInt(3)), (PStr("devops_engineers"), PInt(1)), (PStr("qa_engineers"), PInt(2)),
             (PStr("estimated_cost"), PStr("150,000美元"))]
  }

  /** The `architecture_analysis` dict built for a proposal. */
  function Analysis(arch: Obj): (a: Entries)
    ensures Lookup(a, PStr("migration_complexity")) == Some(PStr(MigrationComplexity))
    ensures Lookup(a, PStr("risk_factors")) == Some(PList(StrList(ArchitectureRisks)))
  {
    var a := [(PStr("current_architecture"), PDict(CurrentArchitecture())), (PStr("proposed_changes"), arch),
                      (PStr("impact_analysis"), PDict(ArchitectureImpact())),
                      (PStr("migration_complexity"), PStr(MigrationComplexity)),
                      (PStr("risk_factors"), PList(StrList(ArchitectureRisks)))];
    assert |"current_architecture"| == 20 && |"proposed_changes"| == 16 && |"impact_analysis"| == 15;
    assert |"migration_complexity"| == 20 && |"risk_factors"| == 12;
    assert "current_architecture"[0] != "migration_complexity"[0];
    assert "current_architecture" != "migration_complexity";
    assert Lookup(a[4..], PStr("risk_factors")) == Some(PList(StrList(ArchitectureRisks)));
    assert Lookup(a[3..], PStr("risk_factors")) == Some(PList(StrList(ArchitectureRisks)));
    assert Lookup(a[2..], PStr("risk_factors")) == Some(PList(StrList(ArchitectureRisks)));
    assert Lookup(a[1..], PStr("risk_factors")) == Some(PList(StrList(ArchitectureRisks)));
    assert Lookup(a[3..], PStr("migration_complexity")) == Some(PStr(MigrationComplexity));
    assert Lookup(a[2..], PStr("migration_complexity")) == Some(PStr(MigrationComplexity));
    assert Lookup(a[1..], PStr("migration_complexity")) == Some(PStr(MigrationComplexity));
    a
  }

  /**
   * `_should_approve_architecture_change` on an analysis dict: missing keys
   * raise KeyError, and the risk factors are read only when the complexity
   * is not high.
   */
  function ShouldApprove(analysis: Entries): (r: Result<bool, PyError>)
    ensures Lookup(analysis, PStr("migration_complexity")).None? ==> r == Err(KeyError)
    ensures Lookup(analysis, PStr("migration_complexity")) == Some(PStr("high")) ==> r == Ok(false)
    ensures var c := Lookup(analysis, PStr("migration_complexity"));
            var f := Lookup(analysis, PStr("risk_factors"));
      c.Some? && c != Some(PStr("high")) && f.Some? && Iterate(f.value).Ok? ==>
        r == ArchitectureApproved(c.value, Iterate(f.value).value)
  {
    match Lookup(analysis, PStr("migration_complexity"))
    case None => Err(KeyError)
    case Some(c) =>
      if c == PStr("high") then Ok(false)
      else match Lookup(analysis, PStr("risk_factors"))
        case None => Err(KeyError)
        case Some(f) =>
          match Iterate(f)
          case Err(e) => Err(e)
          case Ok(risks) => ArchitectureApproved(c, risks)
  }

  /** Whatever the proposal, its analysis approves it. */
  lemma AnalysisApproves(arch: Obj)
    ensures ShouldApprove(Analysis(arch)) == Ok(true)
  {
    RisksNotCritical();
    assert |MigrationComplexity| != |"high"|;
    ClearAnalysisApproves(Analysis(arch), MigrationComplexity, ArchitectureRisks);
  }

  /** An analysis of a complexity other than high whose risk texts never mention "critical" approves. */
  lemma ClearAnalysisApproves(a: Entries, complexity: string, rs: seq<string>)
    requires complexity != "high"
    requires forall i :: 0 <= i < |rs| ==> !Contains(Lower(rs[i]), "critical")
    requires Lookup(a, PStr("migration_complexity")) == Some(PStr(complexity))
    requires Lookup(a, PStr("risk_factors")) == Some(PList(StrList(rs)))
    ensures ShouldApprove(a) == Ok(true)
  {
    ClearListApproved(complexity, rs);
  }

  /** The decision of `_evaluate_architecture_change`. */
  function ArchitectureDecision(arch: Obj, timeline: string): (d: Entries)
    ensures Lookup(d, PStr("approved")) == Some(PBool(true))
  {
    AnalysisApproves(arch);
    var analysis := Analysis(arch);
    [(PStr("approved"), PBool(ShouldApprove(analysis).value)), (PStr("technical_justification"), PDict(analysis)),
             (PStr("implementation_timeline"), PStr(timeline)), (PStr("resource_requirements"), PDict(ResourceNeeds()))]
  }

  /**
   * `_evaluate_architecture_change`: the decision approves (the analysis is
   * fixed), with the timeline for the proposal's complexity. The proposal
   * must be a dict.
   */
  function EvaluateArchitectureChange(content: Entries, sender: Role, now: nat, id: string): (r: Result<Message, PyError>)
    ensures var arch := GetS(content, "architecture_details", PDict([]));
      (r.Ok? <==> arch.PDict? && ImplementationTimeline(arch.entries).Ok?)
      && (r.Ok? ==> (r.value.messageType == ApprovalResponse && r.value.recipient == sender
            && exists d :: Lookup(r.value.content, PStr("decision")) == Some(PDict(d))
                 && Lookup(d, PStr("approved")) == Some(PBool(true))))
  {
    var arch := GetS(content, "architecture_details", PDict([]));
    if !arch.PDict? then Err(AttributeError)
    else
      var timeline := ImplementationTimeline(arch.entries);
      if timeline.Err? then Err(timeline.error)
      else
        var d := ArchitectureDecision(arch, timeline.value);
        var extras := [(PStr("architecture_review"), PBool(true))];
        var m := DecisionMessage(content, sender, PDict(d), extras, now, id);
        assert Lookup(m.content, PStr("decision")) == Some(PDict(d));
        Ok(m)
  }

  // ---------------------------------------------------------------------------
  // Scaling
  // ---------------------------------------------------------------------------

  /** The growth band: under 20, under 50, or more. */
  function GrowthBand(userGrowth: real): (b: nat)
    ensures b <= 2
    ensures b == 0 <==> userGrowth < 20.0
    ensures b == 2 <==> userGrowth >= 50.0
  {
    if userGrowth < 20.0 then 0 else if userGrowth < 50.0 then 1 else 2
  }

  /** Faster growth never lands in a lower band. */
  lemma GrowthBandMonotone(a: real, b: real)
    requires a <= b
    ensures GrowthBand(a) <= GrowthBand(b)
  {
  }

  const ScalingTimelines := ["6个月规划窗口", "3个月需立即行动", "1个月紧急扩展"]
  const InfrastructureInvestments := ["50,000 - 100,000美元", "100,000 - 250,000美元", "250,000+美元"]

  /** `_estimate_scaling_timeline`. */
  function ScalingTimeline(userGrowth: real): (r: string)
    ensures r == ScalingTimelines[GrowthBand(userGrowth)]
  {
    if userGrowth < 20.0 then "6个月规划窗口" else if userGrowth < 50.0 then "3个月需立即行动" else "1个月紧急扩展"
  }

  /** `_calculate_infrastructure_investment`. */
  function InfrastructureInvestment(userGrowth: real): (r: string)
    ensures r == InfrastructureInvestments[GrowthBand(userGrowth)]
  {
    if userGrowth < 20.0 then "50,000 - 100,000美元" else if userGrowth < 50.0 then "100,000 - 250,000美元" else "250,000+美元"
  }

  // ---------------------------------------------------------------------------
  // Routing
  // ---------------------------------------------------------------------------

  /** `_handle_task_assignment`: development and coding tasks go on to R&D. */
  function HandleTaskAssignment(content: Entries, taskId: string, msgId: string, now: nat): (r: Result<Option<Message>, PyError>)
    ensures var task := GetS(content, "task", PDict([]));
      task.PDict? && GetS(task.entries, "title", PStr("")).PStr? ==>
        var title := Lower(GetS(task.entries, "title", PStr("")).s);
        (r == Ok(None) <==> !Contains(title, "development") && !Contains(title, "coding"))
        && (r.Ok? && r.value.Some? ==>
              r.value.value.messageType == TaskAssignment && r.value.value.recipient == RD && r.value.value.sender == CTO)
    ensures var task := GetS(content, "task", PDict([]));
      !task.PDict? || !GetS(task.entries, "title", PStr("")).PStr? ==> r == Err(AttributeError)
  {
    var task := GetS(content, "task", PDict([]));
    if task.PDict? && GetS(task.entries, "title", PStr("")).PStr? then
      ContainsAnyPair(Lower(GetS(task.entries, "title", PStr("")).s), "development", "coding");
      DelegateByTitle(content, ["development", "coding"], CTO, RD, taskId, msgId, now, [])
    else
      DelegateByTitle(content, ["development", "coding"], CTO, RD, taskId, msgId, now, [])
  }

  const TechnicalAlerts: seq<Obj> := [PStr("security_breach"), PStr("performance_degradation"), PStr("system_failure")]

  /** `_handle_alert`: the three technical alert types become a high-priority incident alert to operations. */
  function HandleAlert(content: Entries, now: nat, id: string): (r: Option<Message>)
    ensures r.Some? <==> GetS(content, "alert_type", PStr("")) in TechnicalAlerts
    ensures r.Some? ==> (r.value.messageType == Alert && r.value.sender == CTO
      && r.value.recipient == Operations && r.value.priority == High)
    ensures r.Some? ==> Lookup(r.value.content, PStr("alert_type")) == Some(PStr("technical_incident"))
  {
    if GetS(content, "alert_type", PStr("")) in TechnicalAlerts then
      Some(CreateAlert(CTO, "technical_incident", "CTO处理：" + Show(GetS(content, "message", PStr("检测到技术警报"))),
                       High, Some(Operations), now, id))
    else None
  }

  /**
   * `_handle_approval_request`: technology adoption is evaluated by the
   * oracle (its decision, or the text of the exception that made it fail),
   * architecture changes and deployments by the rules above; any other type
   * is refused. The adoption prompt dumps the technology details before the
   * `try`, so details JSON cannot encode are a TypeError (the stack and the
   * system metrics it also dumps are fixed text and numbers).
   */
  function HandleApprovalRequest(content: Entries, sender: Role, oracle: Result<Obj, string>, now: nat, id: string): (r: Result<Message, PyError>)
    ensures var t := GetS(content, "request_type", PStr(""));
      (t == PStr("architecture_change") ==> r == EvaluateArchitectureChange(content, sender, now, id))
      && (t == PStr("deployment") ==> r == EvaluateDeploymentRequest(content, sender, now, id))
      && (t == PStr("technology_adoption") ==>
            (r.Err? <==> !Utils.Dumpable(GetS(content, "technology_details", PDict([]))))
            && (r.Err? ==> r.error == TypeError)
            && (oracle.Ok? && r.Ok? ==> Lookup(r.value.content, PStr("decision")) == Some(oracle.value)))
      && (t != PStr("technology_adoption") && t != PStr("architecture_change") && t != PStr("deployment") ==>
            r.Ok? && Lookup(r.value.content, PStr("approved")) == Some(PBool(false)))
    ensures r.Ok? ==> r.value.messageType == ApprovalResponse && r.value.recipient == sender
  {
    var t := GetS(content, "request_type", PStr(""));
    if t == PStr("technology_adoption") then
      if !Utils.Dumpable(GetS(content, "technology_details", PDict([]))) then Err(TypeError)
      else if oracle.Ok? then
        Ok(DecisionMessage(content, sender, oracle.value, [(PStr("evaluated_by"), PStr("CTO")), (PStr("technical_evaluation"), PBool(true))], now, id))
      else
        Ok(DecisionMessage(content, sender,
                           PDict([(PStr("approved"), PBool(false)), (PStr("reasoning"), PStr("评估失败：" + oracle.error))]),
                           [], now, id))
    else if t == PStr("architecture_change") then EvaluateArchitectureChange(content, sender, now, id)
    else if t == PStr("deployment") then EvaluateDeploymentRequest(content, sender, now, id)
    else
      var c := [(PStr("request_id"), Get(content, PStr("request_id"), PNone)), (PStr("approved"), PBool(false)),
                        (PStr("reasoning"), PStr("未知审批请求类型：" + Show(t)))];
      assert |"request_id"| == 10 && |"approved"| == 8;
      assert Lookup(c[1..], PStr("approved")) == Some(PBool(false));
      Ok(CreateMessage(CTO, sender, ApprovalResponse, c, Medium, now, id))
  }
}
