// src/agents/cfo.py: the CFO's rule helpers (budget overruns, cash-flow risk
// and mitigations, cost savings and strategies), its alert routing and its
// approval rules. The budget evaluation's reasoning call is an oracle: `Ok(v)`
// is the parsed JSON reply, `Err(t)` the text of the exception that made it fail.
module Cfo {
  import opened Wrappers
  import opened Py
  import opened Base

  // ---------------------------------------------------------------------------
  // Budget overruns
  // ---------------------------------------------------------------------------

  /**
   * The departments of `budget_allocation` and their budgets as the agent
   * starts. The budget-planning handler replaces the whole dict with the
   * language model's plan (src/agents/cfo.py:557-559); that handler is not
   * part of this model, so the rules below read the initial table.
   */
  const DepartmentBudgets: seq<(string, int)> :=
    [("R&D", 300000), ("Marketing", 200000), ("Operations", 150000), ("Sales", 150000),
     ("CustomerSupport", 100000), ("HR", 100000)]

  /** The budget of the first row named `name`, 0 without one. */
  function BudgetIn(table: seq<(string, int)>, name: string): (b: int)
    ensures (forall i :: 0 <= i < |table| ==> table[i].0 != name) ==> b == 0
    ensures b != 0 ==> exists i :: 0 <= i < |table| && table[i] == (name, b)
  {
    if table == [] then 0
    else if table[0].0 == name then table[0].1
    else
      var b := BudgetIn(table[1..], name);
      assert b != 0 ==> exists i :: 0 <= i < |table[1..]| && table[1..][i] == (name, b);
      b
  }

  /** Every department budget is positive. */
  lemma BudgetsPositive(name: string)
    ensures BudgetIn(DepartmentBudgets, name) >= 0
    ensures (exists i :: 0 <= i < |DepartmentBudgets| && DepartmentBudgets[i].0 == name) ==> BudgetIn(DepartmentBudgets, name) > 0
  {
    var b := BudgetIn(DepartmentBudgets, name);
    if b != 0 {
      var i :| 0 <= i < |DepartmentBudgets| && DepartmentBudgets[i] == (name, b);
    }
  }

  /** `departments.get(department, {}).get("budget", 0)`: a key that is not hashable raises TypeError. */
  function DepartmentBudget(dept: Obj): (r: Result<int, PyError>)
    ensures r.Err? <==> Unhashable(dept)
    ensures r.Err? ==> r.error == TypeError
    ensures r.Ok? ==> r.value >= 0
    ensures r.Ok? && r.value > 0 ==> dept.PStr?
  {
    if Unhashable(dept) then Err(TypeError)
    else if dept.PStr? then
      BudgetsPositive(dept.s);
      Ok(BudgetIn(DepartmentBudgets, dept.s))
    else Ok(0)
  }

  datatype OverrunAnalysis = OverrunAnalysis(department: Obj, budget: int, overrun: Obj, percentage: real, severity: string)

  function OverrunObj(a: OverrunAnalysis): Obj
  {
    PDict([(PStr("department"), a.department), (PStr("budget"), PInt(a.budget)), (PStr("overrun_amount"), a.overrun),
           (PStr("overrun_percentage"), PFloat(a.percentage)), (PStr("severity"), PStr(a.severity))])
  }

  /**
   * `_analyze_budget_overrun` as written: the percentage is guarded against
   * a zero budget, the severity is not, so a department without a budget
   * raises ZeroDivisionError. An overrun that is not a number raises
   * TypeError.
   */
  function BudgetOverrunAsWritten(alert: Entries): (r: Result<OverrunAnalysis, PyError>)
    ensures var dept := GetS(alert, "department", PStr("unknown"));
      DepartmentBudget(dept) == Ok(0) && NumberOf(GetS(alert, "overrun_amount", PInt(0))).Some? ==>
        r == Err(ZeroDivisionError)
    ensures r.Err? ==> r.error == TypeError || r.error == ZeroDivisionError
  {
    var dept := GetS(alert, "department", PStr("unknown"));
    var overrun := GetS(alert, "overrun_amount", PInt(0));
    match DepartmentBudget(dept)
    case Err(e) => Err(e)
    case Ok(budget) =>
      match NumberOf(overrun)
      case None => Err(TypeError)
      case Some(amount) =>
        if budget == 0 then Err(ZeroDivisionError)
        else Ok(OverrunAnalysis(dept, budget, overrun, OverrunPercentage(amount, budget), OverrunSeverity(amount, budget)))
  }

  /** An alert naming no department (so "unknown") makes the analysis raise. */
  lemma MissingDepartmentRaises()
    ensures BudgetOverrunAsWritten([(PStr("alert_type"), PStr("budget_overrun"))]) == Err(ZeroDivisionError)
  {
    var alert := [(PStr("alert_type"), PStr("budget_overrun"))];
    assert "alert_type"[0] != "department"[0];
    assert GetS(alert, "department", PStr("unknown")) == PStr("unknown");
    assert BudgetIn(DepartmentBudgets, "unknown") == 0;
  }

  /** The severity of an overrun: high exactly when it exceeds a tenth of a positive budget. */
  function OverrunSeverity(amount: real, budget: int): (s: string)
    ensures s == "high" <==> budget > 0 && amount > 0.1 * budget as real
    ensures s == "high" || s == "medium"
  {
    if budget > 0 && amount / budget as real > 0.1 then
      assert amount / budget as real * budget as real == amount;
      "high"
    else
      assert budget > 0 ==> amount / budget as real * budget as real == amount;
      "medium"
  }

  /** The overrun as a percentage of a positive budget, 0 without one. */
  function OverrunPercentage(amount: real, budget: int): (p: real)
    ensures budget > 0 ==> p * budget as real == amount * 100.0
    ensures budget <= 0 ==> p == 0.0
  {
    if budget > 0 then
      assert amount / budget as real * budget as real == amount;
      amount / budget as real * 100.0
    else 0.0
  }

  /**
   * `_analyze_budget_overrun` with the zero-budget guard applied to the
   * severity as well: severity is high exactly when the overrun exceeds a
   * tenth of a positive budget, and the percentage is the overrun's share of
   * the budget (0 without one).
   */
  function BudgetOverrun(alert: Entries): (r: Result<OverrunAnalysis, PyError>)
    ensures var dept := GetS(alert, "department", PStr("unknown"));
            var overrun := GetS(alert, "overrun_amount", PInt(0));
      (r.Ok? <==> !Unhashable(dept) && NumberOf(overrun).Some?)
      && (r.Err? ==> r.error == TypeError)
      && (r.Ok? ==> Ok(r.value.budget) == DepartmentBudget(dept) && r.value.department == dept && r.value.overrun == overrun)
    ensures r.Ok? && NumberOf(r.value.overrun).Some? ==>
      r.value.severity == OverrunSeverity(NumberOf(r.value.overrun).value, r.value.budget)
      && r.value.percentage == OverrunPercentage(NumberOf(r.value.overrun).value, r.value.budget)
  {
    var dept := GetS(alert, "department", PStr("unknown"));
    var overrun := GetS(alert, "overrun_amount", PInt(0));
    match DepartmentBudget(dept)
    case Err(e) => Err(e)
    case Ok(budget) =>
      match NumberOf(overrun)
      case None => Err(TypeError)
      case Some(amount) =>
        var a := OverrunAnalysis(dept, budget, overrun, OverrunPercentage(amount, budget), OverrunSeverity(amount, budget));
        assert NumberOf(a.overrun) == Some(amount);
        Ok(a)
  }

  /** The alert that made the written analysis raise is now a medium-severity overrun of no budget. */
  lemma MissingDepartmentMedium()
    ensures var r := BudgetOverrun([(PStr("alert_type"), PStr("budget_overrun"))]);
      r.Ok? && r.value.budget == 0 && r.value.severity == "medium" && r.value.percentage == 0.0
  {
    var alert := [(PStr("alert_type"), PStr("budget_overrun"))];
    assert "alert_type"[0] != "department"[0];
    assert GetS(alert, "department", PStr("unknown")) == PStr("unknown");
    assert BudgetIn(DepartmentBudgets, "unknown") == 0;
  }

  /** Wherever the written analysis succeeds, the corrected one agrees with it. */
  lemma OverrunFixAgrees(alert: Entries)
    requires BudgetOverrunAsWritten(alert).Ok?
    ensures BudgetOverrun(alert) == BudgetOverrunAsWritten(alert)
  {
  }

  /** `_generate_budget_overrun_actions`. */
  function OverrunActions(alert: Entries): (r: seq<string>)
    ensures |r| == 5 && r[0] == "立即审查" + Show(GetS(alert, "department", PStr("unknown"))) + "部门的所有支出"
  {
    ["立即审查" + Show(GetS(alert, "department", PStr("unknown"))) + "部门的所有支出", "识别非必要支出并削减",
     "与部门主管召开紧急会议", "评估是否需要从其他部门重新分配预算", "更新月度现金流预测"]
  }

  // ---------------------------------------------------------------------------
  // Cash flow
  // ---------------------------------------------------------------------------

  /** The `financial_metrics` figures the helpers read; only `runway_months` is ever updated. */
  const BurnRate := 50000
  const CashOnHand := 1000000
  const Revenue := 0.0

  /** The risk level of a runway in months. */
  function RiskLevel(runway: real): (r: string)
    ensures r == "critical" <==> runway < 6.0
    ensures r == "high" <==> 6.0 <= runway < 12.0
    ensures r == "medium" <==> runway >= 12.0
  {
    if runway < 6.0 then "critical" else if runway < 12.0 then "high" else "medium"
  }

  const SevereWarning := "严重：现金储备不足6个月"
  const RunwayWarning := "警告：现金储备不足12个月"
  const BurnWarning := "高烧速率：每月支出超过$100K"
  const NegativeCashFlow := "负现金流：收入不足以覆盖支出"

  /** `_identify_cash_flow_warning_signs`, for a burn rate and revenue. */
  function WarningSigns(runway: real, burnRate: real, revenue: real): (r: seq<string>)
    ensures (SevereWarning in r <==> runway < 6.0) && (RunwayWarning in r <==> runway < 12.0)
    ensures (BurnWarning in r <==> burnRate > 100000.0) && (NegativeCashFlow in r <==> revenue < burnRate)
    ensures |r| <= 4
  {
    assert SevereWarning[0] != RunwayWarning[0] && SevereWarning[0] != BurnWarning[0] && SevereWarning[0] != NegativeCashFlow[0];
    assert RunwayWarning[0] != BurnWarning[0] && RunwayWarning[0] != NegativeCashFlow[0] && BurnWarning[0] != NegativeCashFlow[0];
    (if runway < 6.0 then [SevereWarning] else [])
    + (if runway < 12.0 then [RunwayWarning] else [])
    + (if burnRate > 100000.0 then [BurnWarning] else [])
    + (if revenue < burnRate then [NegativeCashFlow] else [])
  }

  /** With the agent's own figures, the revenue never covers the burn rate. */
  lemma OwnFiguresWarn(runway: real)
    ensures var w := WarningSigns(runway, BurnRate as real, Revenue);
      NegativeCashFlow in w && BurnWarning !in w
      && |w| == (if runway < 6.0 then 3 else if runway < 12.0 then 2 else 1)
  {
  }

  const GenericMitigations := ["更新6个月现金流预测", "准备备选融资方案"]

  /** `_generate_cash_flow_mitigations`: three emergency steps under 6 months, two more under 12, two always. */
  function Mitigations(runway: real): (r: seq<string>)
    ensures |r| == (if runway < 6.0 then 7 else if runway < 12.0 then 4 else 2)
    ensures r[|r| - 2..] == GenericMitigations
  {
    (if runway < 6.0 then ["启动紧急成本削减计划（30%）", "加速收款流程", "延迟非关键资本支出"] else [])
    + (if runway < 12.0 then ["审查并优化费用报销政策", " renegotiate 合同付款条款"] else [])
    + GenericMitigations
  }

  /** A shorter runway never gets fewer mitigation steps. */
  lemma MitigationsMonotone(a: real, b: real)
    requires a <= b
    ensures |Mitigations(b)| <= |Mitigations(a)|
  {
  }

  datatype CashFlowImpact = CashFlowImpact(runway: Obj, riskLevel: string, warnings: seq<string>)

  function ImpactObj(c: CashFlowImpact): Obj
  {
    PDict([(PStr("current_runway"), c.runway), (PStr("burn_rate"), PInt(BurnRate)), (PStr("cash_on_hand"), PInt(CashOnHand)),
           (PStr("risk_level"), PStr(c.riskLevel)), (PStr("warning_signs"), PList(StrList(c.warnings)))])
  }

  /** `_assess_cash_flow_impact`: the runway defaults to 12 and must compare with numbers. */
  function AssessCashFlow(alert: Entries): (r: Result<CashFlowImpact, PyError>)
    ensures var runway := GetS(alert, "runway", PInt(12));
      (r.Ok? <==> NumberOf(runway).Some?) && (r.Err? ==> r.error == TypeError)
      && (r.Ok? ==> r.value.runway == runway && r.value.riskLevel == RiskLevel(NumberOf(runway).value)
                    && r.value.warnings == WarningSigns(NumberOf(runway).value, BurnRate as real, Revenue))
  {
    var runway := GetS(alert, "runway", PInt(12));
    match NumberOf(runway)
    case None => Err(TypeError)
    case Some(months) => Ok(CashFlowImpact(runway, RiskLevel(months), WarningSigns(months, BurnRate as real, Revenue)))
  }

  // ---------------------------------------------------------------------------
  // Costs
  // ---------------------------------------------------------------------------

  datatype Savings = Savings(category: Obj, currentCost: Obj, percentage: int, estimated: real)

  function SavingsObj(s: Savings): Obj
  {
    PDict([(PStr("cost_category"), s.category), (PStr("current_cost"), s.currentCost),
           (PStr("potential_savings_percentage"), PInt(s.percentage)), (PStr("estimated_savings"), PFloat(s.estimated))])
  }

  /**
   * `_estimate_cost_savings` against the `cost_metrics` dict: 15% of a cost
   * above 10000, 10% otherwise; a missing category costs 0.
   */
  function EstimateSavings(alert: Entries, costs: Entries): (r: Result<Savings, PyError>)
    ensures var cat := GetS(alert, "cost_category", PStr("unknown"));
      (r.Ok? <==> !Unhashable(cat) && NumberOf(Get(costs, cat, PInt(0))).Some?)
      && (r.Err? ==> r.error == TypeError)
    ensures r.Ok? && NumberOf(r.value.currentCost).Some? ==> var cost := NumberOf(r.value.currentCost).value;
      (r.value.percentage == 15 <==> cost > 10000.0)
      && (r.value.percentage == 10 <==> cost <= 10000.0)
      && r.value.estimated * 100.0 == cost * r.value.percentage as real
  {
    var cat := GetS(alert, "cost_category", PStr("unknown"));
    if Unhashable(cat) then Err(TypeError)
    else
      var current := Get(costs, cat, PInt(0));
      match NumberOf(current)
      case None => Err(TypeError)
      case Some(cost) =>
        if cost > 10000.0 then Ok(Savings(cat, current, 15, cost * 0.15))
        else Ok(Savings(cat, current, 10, cost * 0.1))
  }

  /** `_generate_cost_optimization_strategies`: four for compute and cloud, three otherwise. */
  function Strategies(alert: Entries): (r: seq<string>)
    ensures var cat := GetS(alert, "cost_category", PStr("unknown"));
      |r| == (if cat == PStr("ai_compute_costs") || cat == PStr("cloud_services") then 4 else 3)
  {
    var cat := GetS(alert, "cost_category", PStr("unknown"));
    if cat == PStr("ai_compute_costs") then
      ["优化模型使用，使用更高效的推理", "实施缓存策略减少重复API调用", "批量处理请求", "考虑开源模型替代"]
    else if cat == PStr("cloud_services") then
      ["审查并停用未使用的资源", "应用预留实例折扣", "实施自动缩放策略", "优化存储层级"]
    else if cat == PStr("personnel_costs") then
      ["审查组织效率指标", "优化工作流程自动化", "考虑混合工作模式"]
    else
      ["进行全面的成本结构审查", "实施预算审批流程强化", "建立成本控制KPI"]
  }

  // ---------------------------------------------------------------------------
  // Alerts
  // ---------------------------------------------------------------------------

  /** The status report to the CEO on a budget overrun. */
  function OverrunReport(alert: Entries, a: OverrunAnalysis, now: nat, id: string): (m: Message)
    ensures m.messageType == StatusReport && m.sender == CFO && m.recipient == CEO
    ensures Lookup(m.content, PStr("alert_type")) == Some(PStr("budget_overrun_detected"))
  {
    CreateMessage(CFO, CEO, StatusReport,
      [(PStr("alert_type"), PStr("budget_overrun_detected")),
       (PStr("message"), PStr("CFO Alert: Budget overrun detected for " + Show(GetS(alert, "department", PStr("unknown department"))))),
       (PStr("severity"), GetS(alert, "severity", PStr("high"))), (PStr("analysis"), OverrunObj(a)),
       (PStr("recommended_actions"), PList(StrList(OverrunActions(alert))))], Medium, now, id)
  }

  /** The alert to the CEO on a cash-flow risk, with the mitigations for its runway. */
  function CashFlowWarning(alert: Entries, c: CashFlowImpact, months: real, now: nat, id: string): (m: Message)
    ensures m.messageType == Alert && m.sender == CFO && m.recipient == CEO && m.priority == Medium
    ensures Lookup(m.content, PStr("alert_type")) == Some(PStr("cash_flow_warning"))
  {
    CreateMessage(CFO, CEO, Alert,
      [(PStr("alert_type"), PStr("cash_flow_warning")),
       (PStr("message"), PStr("CFO Alert: Cash flow runway below threshold: " + Show(GetS(alert, "runway", PStr("unknown"))) + " months")),
       (PStr("severity"), PStr("critical")), (PStr("financial_impact"), ImpactObj(c)),
       (PStr("mitigation_steps"), PList(StrList(Mitigations(months))))], Medium, now, id)
  }

  /** The collaboration request to operations on a high cost. */
  function CostRecommendation(alert: Entries, s: Savings, now: nat, id: string): (m: Message)
    ensures m.messageType == Collaboration && m.sender == CFO && m.recipient == Operations
    ensures Lookup(m.content, PStr("alert_type")) == Some(PStr("cost_optimization_recommended"))
  {
    CreateMessage(CFO, Operations, Collaboration,
      [(PStr("alert_type"), PStr("cost_optimization_recommended")),
       (PStr("message"), PStr("CFO: Cost optimization recommended - " + Show(GetS(alert, "cost_category", PStr("unknown"))))),
       (PStr("severity"), GetS(alert, "severity", PStr("medium"))), (PStr("savings_potential"), SavingsObj(s)),
       (PStr("optimization_strategies"), PList(StrList(Strategies(alert))))], Medium, now, id)
  }

  /**
   * `_handle_alert`: a budget overrun is reported to the CEO, a cash-flow
   * risk alerted to the CEO, a high cost passed to operations; anything else
   * gives no message. The overrun is analysed as written, so a department
   * without a budget raises ZeroDivisionError.
   */
  function HandleAlert(alert: Entries, costs: Entries, now: nat, id: string): (r: Result<Option<Message>, PyError>)
    ensures var t := GetS(alert, "alert_type", PStr(""));
      (t == PStr("budget_overrun") ==>
         (BudgetOverrunAsWritten(alert).Err? ==> r == Err(BudgetOverrunAsWritten(alert).error))
         && (BudgetOverrunAsWritten(alert).Ok? ==> r.Ok?)
         && (r.Ok? ==> r.value.Some? && r.value.value.messageType == StatusReport && r.value.value.recipient == CEO
                       && Lookup(r.value.value.content, PStr("alert_type")) == Some(PStr("budget_overrun_detected"))))
      && (t == PStr("cash_flow_risk") ==>
         (r.Ok? <==> AssessCashFlow(alert).Ok?)
         && (r.Ok? ==> r.value.Some? && r.value.value.messageType == Alert && r.value.value.recipient == CEO
                       && Lookup(r.value.value.content, PStr("alert_type")) == Some(PStr("cash_flow_warning"))))
      && (t == PStr("high_cost_alert") ==>
         (r.Ok? <==> EstimateSavings(alert, costs).Ok?)
         && (r.Ok? ==> r.value.Some? && r.value.value.messageType == Collaboration && r.value.value.recipient == Operations
                       && Lookup(r.value.value.content, PStr("alert_type")) == Some(PStr("cost_optimization_recommended"))))
      && ((t != PStr("budget_overrun") && t != PStr("cash_flow_risk") && t != PStr("high_cost_alert")) ==> r == Ok(None))
    ensures r.Err? ==> r.error == TypeError || r.error == ZeroDivisionError
  {
    var t := GetS(alert, "alert_type", PStr(""));
    if t == PStr("budget_overrun") then
      match BudgetOverrunAsWritten(alert)
      case Err(e) => Err(e)
      case Ok(a) => Ok(Some(OverrunReport(alert, a, now, id)))
    else if t == PStr("cash_flow_risk") then
      match AssessCashFlow(alert)
      case Err(e) => Err(e)
      case Ok(c) => Ok(Some(CashFlowWarning(alert, c, NumberOf(c.runway).value, now, id)))
    else if t == PStr("high_cost_alert") then
      match EstimateSavings(alert, costs)
      case Err(e) => Err(e)
      case Ok(sv) => Ok(Some(CostRecommendation(alert, sv, now, id)))
    else Ok(None)
  }
  /** An overrun alert naming no department makes the handler raise instead of reporting. */
  lemma OverrunAlertRaises(costs: Entries, now: nat, id: string)
    ensures HandleAlert([(PStr("alert_type"), PStr("budget_overrun"))], costs, now, id) == Err(ZeroDivisionError)
  {
    MissingDepartmentRaises();
    assert |"alert_type"| == 10;
  }


  // ---------------------------------------------------------------------------
  // Approvals
  // ---------------------------------------------------------------------------

  /** An approval response carrying `decision`, evaluated by the CFO. */
  function DecisionReply(content: Entries, sender: Role, decision: Entries, now: nat, id: string): (m: Message)
    ensures m.messageType == ApprovalResponse && m.sender == CFO && m.recipient == sender
    ensures Verdict(m) == Lookup(decision, PStr("approved"))
  {
    var c := [(PStr("request_id"), Get(content, PStr("request_id"), PNone)), (PStr("decision"), PDict(decision)),
              (PStr("evaluated_by"), PStr("CFO"))];
    assert |"request_id"| == 10 && |"decision"| == 8;
    assert Lookup(c[1..], PStr("decision")) == Some(PDict(decision));
    CreateMessage(CFO, sender, ApprovalResponse, c, Medium, now, id)
  }

  const ExpenseLimit := 5000.0

  /**
   * `_evaluate_expense_reimbursement_request`: approved below 5000, with the
   * amount approved in full, or 0 when refused. The details must be a dict
   * and the amount a number.
   */
  function ExpenseDecision(content: Entries): (r: Result<Entries, PyError>)
    ensures var details := GetS(content, "expense_details", PDict([]));
      (!details.PDict? ==> r == Err(AttributeError))
      && (details.PDict? ==>
            var amount := GetS(details.entries, "amount", PInt(0));
            (r.Ok? <==> NumberOf(amount).Some?)
            && (r.Ok? ==>
                  Lookup(r.value, PStr("approved")) == Some(PBool(NumberOf(amount).value < ExpenseLimit))
                  && Lookup(r.value, PStr("amount_approved")) == Some(if NumberOf(amount).value < ExpenseLimit then amount else PInt(0))))
  {
    var details := GetS(content, "expense_details", PDict([]));
    if !details.PDict? then Err(AttributeError)
    else
      var amount := GetS(details.entries, "amount", PInt(0));
      match NumberOf(amount)
      case None => Err(TypeError)
      case Some(a) =>
        var approved := a < ExpenseLimit;
        var d := [(PStr("approved"), PBool(approved)), (PStr("amount_approved"), if approved then amount else PInt(0)),
                  (PStr("justification"), PStr(if approved then "符合常规费用政策" else "超过常规审批限额"))];
        assert |"approved"| == 8 && |"amount_approved"| == 15;
        assert Lookup(d[1..], PStr("amount_approved")) == Some(if approved then amount else PInt(0));
        Ok(d)
  }

  /** `_evaluate_capital_expenditure_request`: never approved; the request must be a dict. */
  function CapexDecision(content: Entries): (r: Result<Entries, PyError>)
    ensures r.Ok? <==> GetS(content, "capex_request", PDict([])).PDict?
    ensures r.Ok? ==> Lookup(r.value, PStr("approved")) == Some(PBool(false))
  {
    var capex := GetS(content, "capex_request", PDict([]));
    if !capex.PDict? then Err(AttributeError)
    else
      Ok([(PStr("approved"), PBool(false)), (PStr("justification"), PStr("未实现")),
          (PStr("required_analysis"), PList(StrList(["NPV", "IRR", "Payback Period"]))),
          (PStr("estimated_cost"), GetS(capex.entries, "estimated_cost", PInt(0)))])
  }

  /** `_evaluate_investment_approval_request`: never approved. */
  function InvestmentDecision(): (d: Entries)
    ensures Lookup(d, PStr("approved")) == Some(PBool(false))
  {
    [(PStr("approved"), PBool(false)), (PStr("justification"), PStr("需要更详细的财务建模")),
     (PStr("required_information"), PList(StrList(["投资目的", "预期回报", "风险评估", "退出策略"])))]
  }

  /**
   * The text of an exception raised while reading an oracle reply. The
   * source embeds `str(e)`, the exception's message; the model has no
   * messages and writes the exception's class name instead.
   */
  function ErrorText(e: PyError): string
  {
    match e
    case AttributeError => "AttributeError" case TypeError => "TypeError" case ValueError => "ValueError"
    case KeyError => "KeyError" case ZeroDivisionError => "ZeroDivisionError" case FileNotFoundError => "FileNotFoundError"
  }

  /**
   * `_evaluate_budget_allocation_request`: the reply's fields of a dict reply
   * (approved False when absent); any failure of the call or of reading its
   * reply gives a refusal naming the failure. The budget request must be a
   * dict, since the prompt reads it before the call.
   */
  function BudgetAllocationDecision(content: Entries, oracle: Result<Obj, string>): (r: Result<Entries, PyError>)
    ensures var req := GetS(content, "budget_request", PDict([]));
      (r.Ok? <==> req.PDict?)
      && (r.Ok? && oracle.Ok? && oracle.value.PDict? ==>
            Lookup(r.value, PStr("approved")) == Some(GetS(oracle.value.entries, "approved", PBool(false))))
      && (r.Ok? && !(oracle.Ok? && oracle.value.PDict?) ==> Lookup(r.value, PStr("approved")) == Some(PBool(false)))
  {
    var req := GetS(content, "budget_request", PDict([]));
    if !req.PDict? then Err(AttributeError)
    else if oracle.Ok? && oracle.value.PDict? then
      var e := oracle.value.entries;
      Ok([(PStr("approved"), GetS(e, "approved", PBool(false))), (PStr("recommended_amount"), GetS(e, "recommended_amount", PInt(0))),
          (PStr("justification"), GetS(e, "justification", PStr(""))), (PStr("conditions"), GetS(e, "conditions", PList([])))])
    else
      var why := if oracle.Err? then oracle.error else ErrorText(AttributeError);
      Ok([(PStr("approved"), PBool(false)), (PStr("justification"), PStr("评估失败: " + why))])
  }

  /**
   * `_handle_approval_request`: budget allocations, capital expenditure,
   * investments and expense reimbursements by the rules above; any other
   * type is refused.
   */
  function HandleApprovalRequest(content: Entries, sender: Role, oracle: Result<Obj, string>, now: nat, id: string): (r: Result<Message, PyError>)
    ensures r.Ok? ==> r.value.messageType == ApprovalResponse && r.value.recipient == sender
    ensures var t := GetS(content, "request_type", PStr(""));
      (t == PStr("budget_allocation") ==>
         (match BudgetAllocationDecision(content, oracle)
          case Err(e) => r == Err(e)
          case Ok(d) => r.Ok? && Verdict(r.value) == Lookup(d, PStr("approved"))))
      && (t == PStr("capital_expenditure") ==> (r.Ok? <==> CapexDecision(content).Ok?) && (r.Ok? ==> Verdict(r.value) == Some(PBool(false))))
      && (t == PStr("investment_approval") ==> r.Ok? && Verdict(r.value) == Some(PBool(false)))
      && (t == PStr("expense_reimbursement") ==>
         (match ExpenseDecision(content)
          case Err(e) => r == Err(e)
          case Ok(d) => r.Ok? && Verdict(r.value) == Lookup(d, PStr("approved"))))
      && ((t != PStr("budget_allocation") && t != PStr("capital_expenditure") && t != PStr("investment_approval")
          && t != PStr("expense_reimbursement")) ==> r.Ok? && Lookup(r.value.content, PStr("approved")) == Some(PBool(false)))
  {
    var t := GetS(content, "request_type", PStr(""));
    if t == PStr("budget_allocation") then
      match BudgetAllocationDecision(content, oracle)
      case Err(e) => Err(e)
      case Ok(d) => Ok(DecisionReply(content, sender, d, now, id))
    else if t == PStr("capital_expenditure") then
      match CapexDecision(content)
      case Err(e) => Err(e)
      case Ok(d) => Ok(DecisionReply(content, sender, d, now, id))
    else if t == PStr("investment_approval") then Ok(DecisionReply(content, sender, InvestmentDecision(), now, id))
    else if t == PStr("expense_reimbursement") then
      match ExpenseDecision(content)
      case Err(e) => Err(e)
      case Ok(d) => Ok(DecisionReply(content, sender, d, now, id))
    else
      var c := [(PStr("request_id"), Get(content, PStr("request_id"), PNone)), (PStr("approved"), PBool(false)),
                (PStr("reasoning"), PStr("Unknown request type: " + Show(t)))];
      assert |"request_id"| == 10 && |"approved"| == 8;
      assert Lookup(c[1..], PStr("approved")) == Some(PBool(false));
      Ok(CreateMessage(CFO, sender, ApprovalResponse, c, Medium, now, id))
  }

  /** An expense reimbursement is approved exactly below the limit. */
  lemma ExpenseApprovedIff(content: Entries, sender: Role, oracle: Result<Obj, string>, now: nat, id: string)
    requires GetS(content, "request_type", PStr("")) == PStr("expense_reimbursement")
    requires GetS(content, "expense_details", PDict([])).PDict?
    requires NumberOf(GetS(GetS(content, "expense_details", PDict([])).entries, "amount", PInt(0))).Some?
    ensures var amount := NumberOf(GetS(GetS(content, "expense_details", PDict([])).entries, "amount", PInt(0))).value;
      HandleApprovalRequest(content, sender, oracle, now, id).Ok?
      && (Verdict(HandleApprovalRequest(content, sender, oracle, now, id).value) == Some(PBool(true)) <==> amount < ExpenseLimit)
  {
    var d := ExpenseDecision(content).value;
    assert Verdict(HandleApprovalRequest(content, sender, oracle, now, id).value) == Lookup(d, PStr("approved"));
  }
}
