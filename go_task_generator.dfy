// scheduler/task_generator.go: three fixed task titles per role, turned into
// pending tasks the role assigns to itself. The clock reading is the
// parameter `now`, so every task of one call gets the same ID.
module GoTaskGenerator {
  import opened Wrappers
  import opened GoTypes
  import GoTask
  import GoPriorityQueue
  import GoWorklist

  /** `roleTemplates`. */
  const RoleTemplates: map<string, seq<string>> := map[
    "ceo" := ["审核战略目标", "召开管理层会议", "审批季度报告"],
    "cto" := ["评估技术架构", "审核代码质量", "监控系统健康"],
    "cpo" := ["规划产品路线图", "分析用户反馈", "定义功能优先级"],
    "cmo" := ["制定市场策略", "监控品牌声量", "评估营销活动"],
    "cfo" := ["审核财务报表", "监控现金流", "分析成本效益"],
    "hr" := ["评估团队绩效", "识别协作瓶颈", "优化资源配置"],
    "rd" := ["修复高优Bug", "优化性能瓶颈", "更新技术文档"],
    "customer_support" := ["响应用户咨询", "收集反馈", "分类问题"],
    "data_analyst" := ["生成数据报表", "分析异常模式", "构建预测模型"],
    "operations" := ["监控系统健康", "优化工作流", "处理异常"],
    "chairman" := ["监督公司运营", "审批重大决策", "评估高管绩效"]
  ]

  /** The templates of a role; an unknown role has none. */
  function Templates(role: string): (ts: seq<string>)
    ensures role in RoleTemplates ==> |ts| == 3
    ensures role !in RoleTemplates ==> ts == []
  {
    if role in RoleTemplates then RoleTemplates[role] else []
  }

  /** The task the loop builds for one template. */
  function TaskFor(role: string, template: string, now: nat): Task
  {
    Task(GoTask.GenerateTaskID(now), template, template, role, role, GoTask.Pending,
         [], [], None, now, now,
         map["source" := Str("auto"), "priority" := Str(GoPriorityQueue.Medium),
             "generated_by" := Str(role), "generated_at" := Int(now)])
  }

  /** One task per template of the role, in template order. Each is pending,
      assigned by the role to itself, titled and described by its template,
      filed by a work list under Medium, and carries an "auto_" ID. */
  method GenerateTasks(role: string, now: nat) returns (r: seq<Task>)
    ensures |r| == |Templates(role)|
    ensures forall i :: 0 <= i < |r| ==> r[i] == TaskFor(role, Templates(role)[i], now)
    ensures forall i :: 0 <= i < |r| ==>
      r[i].title == r[i].description == Templates(role)[i] &&
      r[i].assignedTo == r[i].assignedBy == role && r[i].status == GoTask.Pending &&
      GoWorklist.FilingPriority(r[i]) == GoPriorityQueue.Medium &&
      |r[i].taskId| > 5 && r[i].taskId[..5] == "auto_"
  {
    var templates := Templates(role);
    r := [];
    var i := 0;
    while i < |templates|
      invariant 0 <= i <= |templates|
      invariant |r| == i
      invariant forall j :: 0 <= j < i ==> r[j] == TaskFor(role, templates[j], now)
    {
      r := r + [TaskFor(role, templates[i], now)];
      i := i + 1;
    }
  }

  /** All tasks of one call share one ID: the ID has a resolution of one second. */
  lemma SameIds(role: string, now: nat, r: seq<Task>)
    requires |r| == |Templates(role)|
    requires forall i :: 0 <= i < |r| ==> r[i] == TaskFor(role, Templates(role)[i], now)
    ensures forall i, j :: 0 <= i < |r| && 0 <= j < |r| ==> r[i].taskId == r[j].taskId
    ensures role in RoleTemplates ==> r[0].taskId == r[1].taskId == r[2].taskId
  {
  }
}
