// src/agents/ceo.py: the CEO's feedback summary and theme extraction, the
// report helpers that pick leading recommendations, its alert and approval
// rules, and the strategic state it keeps (goals, market trends). The approval
// evaluation's reasoning call is an oracle: `Ok(v)` is the parsed JSON reply,
// `Err(t)` the failure that made it unusable.
module Ceo {
  import opened Wrappers
  import opened Py
  import opened Base
  import Strings
  import Clock
  import Utils

  // ---------------------------------------------------------------------------
  // Feedback themes
  // ---------------------------------------------------------------------------

  const FeatureRequests := "功能请求"
  const BugReports := "错误报告"
  const PerformanceIssues := "性能问题"
  const AllThemes := {FeatureRequests, BugReports, PerformanceIssues}

  /** The themes one lower-cased feedback message raises. */
  function MessageThemes(m: string): (t: set<string>)
    ensures FeatureRequests in t <==> Strings.Contains(m, "feature")
    ensures BugReports in t <==> Strings.Contains(m, "bug") || Strings.Contains(m, "error")
    ensures PerformanceIssues in t <==> Strings.Contains(m, "slow") || Strings.Contains(m, "performance")
    ensures t <= AllThemes
  {
    assert FeatureRequests[0] != BugReports[0] && FeatureRequests[0] != PerformanceIssues[0] && BugReports[0] != PerformanceIssues[0];
    (if Strings.Contains(m, "feature") then {FeatureRequests} else {})
    + (if Strings.Contains(m, "bug") || Strings.Contains(m, "error") then {BugReports} else {})
    + (if Strings.Contains(m, "slow") || Strings.Contains(m, "performance") then {PerformanceIssues} else {})
  }

  /** `f.get("message", "").lower()`: the item must be a dict and its message text. */
  function FeedbackMessage(f: Obj): (r: Result<string, PyError>)
    ensures r.Err? <==> !f.PDict? || !GetS(f.entries, "message", PStr("")).PStr?
    ensures r.Err? ==> r.error == AttributeError
  {
    if !f.PDict? then Err(AttributeError) else LowerOf(GetS(f.entries, "message", PStr("")))
  }

  /** Feedback item `f` raises theme `th`. */
  predicate Raises(f: Obj, th: string)
  {
    FeedbackMessage(f).Ok? && th in MessageThemes(FeedbackMessage(f).value)
  }

  /** The themes of a run of feedback items, or the first failure reading one. */
  function FeedbackThemes(fs: seq<Obj>): Result<set<string>, PyError>
    decreases |fs|
  {
    if fs == [] then Ok({})
    else match FeedbackThemes(fs[..|fs| - 1])
      case Err(e) => Err(e)
      case Ok(t) =>
        match FeedbackMessage(fs[|fs| - 1])
        case Err(e) => Err(e)
        case Ok(m) => Ok(t + MessageThemes(m))
  }

  /** Themes are read exactly when every message is. */
  lemma {:induction false} FeedbackThemesOk(fs: seq<Obj>)
    ensures FeedbackThemes(fs).Ok? <==> forall i :: 0 <= i < |fs| ==> FeedbackMessage(fs[i]).Ok?
    ensures FeedbackThemes(fs).Err? ==> FeedbackThemes(fs).error == AttributeError
    decreases |fs|
  {
    if fs != [] {
      var init := fs[..|fs| - 1];
      FeedbackThemesOk(init);
      assert forall i :: 0 <= i < |init| ==> init[i] == fs[i];
    }
  }

  /** The themes are fixed ones. */
  lemma {:induction false} FeedbackThemesWithin(fs: seq<Obj>)
    ensures FeedbackThemes(fs).Ok? ==> FeedbackThemes(fs).value <= AllThemes
    decreases |fs|
  {
    if fs != [] {
      FeedbackThemesWithin(fs[..|fs| - 1]);
    }
  }

  /** A theme is found exactly when some item raises it. */
  lemma {:induction false} FeedbackThemesIn(fs: seq<Obj>, th: string)
    requires FeedbackThemes(fs).Ok?
    ensures th in FeedbackThemes(fs).value <==> exists i :: 0 <= i < |fs| && Raises(fs[i], th)
    decreases |fs|
  {
    if fs != [] {
      FeedbackThemesIn(fs[..|fs| - 1], th);
      RaisesSnoc(fs, fs[..|fs| - 1], th);
    }
  }

  lemma RaisesSnoc(fs: seq<Obj>, init: seq<Obj>, th: string)
    requires fs != [] && init == fs[..|fs| - 1]
    ensures (exists i :: 0 <= i < |fs| && Raises(fs[i], th))
        <==> (exists i :: 0 <= i < |init| && Raises(init[i], th)) || Raises(fs[|fs| - 1], th)
  {
    var flags := seq(|fs|, i requires 0 <= i < |fs| => Raises(fs[i], th));
    assert forall i :: 0 <= i < |init| ==> flags[i] == Raises(init[i], th);
    AnySnoc(flags);
  }

  lemma AnySnoc(flags: seq<bool>)
    requires flags != []
    ensures (exists i :: 0 <= i < |flags| && flags[i])
        <==> (exists i :: 0 <= i < |flags| - 1 && flags[i]) || flags[|flags| - 1]
  {
  }

  /** The order in which a theme set is listed (Python's set order is arbitrary). */
  function ThemeList(s: set<string>): (r: seq<string>)
    ensures forall i, j :: 0 <= i < j < |r| ==> r[i] != r[j]
    ensures s <= AllThemes ==> (set t | t in r) == s
  {
    assert FeatureRequests[0] != BugReports[0] && FeatureRequests[0] != PerformanceIssues[0] && BugReports[0] != PerformanceIssues[0];
    (if FeatureRequests in s then [FeatureRequests] else [])
    + (if BugReports in s then [BugReports] else [])
    + (if PerformanceIssues in s then [PerformanceIssues] else [])
  }

  /** At most the first ten items are sampled. */
  function Sample(fs: seq<Obj>): (r: seq<Obj>)
    ensures |r| <= 10 && |r| <= |fs| && r == fs[..|r|] && (|fs| >= 10 ==> |r| == 10) && (|fs| < 10 ==> r == fs)
  {
    if |fs| < 10 then fs else fs[..10]
  }

  /**
   * `_extract_themes_from_feedback`: the themes of the first ten items,
   * each listed once.
   */
  method ExtractThemes(feedback: seq<Obj>) returns (r: Result<seq<string>, PyError>)
    ensures (r.Ok? <==> FeedbackThemes(Sample(feedback)).Ok?) && (r.Err? ==> r.error == AttributeError)
    ensures r.Ok? ==> r.value == ThemeList(FeedbackThemes(Sample(feedback)).value)
  {
    var head := Sample(feedback);
    var themes: seq<string> := [];
    var i := 0;
    assert head[..0] == [] && SetOf(themes) == {};
    while i < |head|
      invariant 0 <= i <= |head|
      invariant FeedbackThemes(head[..i]) == Ok(SetOf(themes))
    {
      ThemesStep(head, i);
      var message := FeedbackMessage(head[i]);
      if message.Err? {
        FeedbackThemesOk(head);
        return Err(message.error);
      }
      SetOfConcat(themes, MessageThemeList(message.value));
      themes := themes + MessageThemeList(message.value);
      i := i + 1;
    }
    assert head[..i] == head;
    r := Ok(ThemeList(SetOf(themes)));
  }

  /** One more item adds its message's themes, or fails reading it. */
  lemma ThemesStep(fs: seq<Obj>, i: nat)
    requires i < |fs|
    ensures FeedbackThemes(fs[..i + 1]) ==
      match FeedbackThemes(fs[..i])
      case Err(e) => Err(e)
      case Ok(t) => (match FeedbackMessage(fs[i]) case Err(e) => Err(e) case Ok(m) => Ok(t + MessageThemes(m)))
  {
    assert fs[..i + 1][..i] == fs[..i] && fs[..i + 1][i] == fs[i];
  }

  /** What one message appends to the theme list, in the order it is tested. */
  function MessageThemeList(m: string): (r: seq<string>)
    ensures SetOf(r) == MessageThemes(m)
  {
    (if Strings.Contains(m, "feature") then [FeatureRequests] else [])
    + (if Strings.Contains(m, "bug") || Strings.Contains(m, "error") then [BugReports] else [])
    + (if Strings.Contains(m, "slow") || Strings.Contains(m, "performance") then [PerformanceIssues] else [])
  }

  /** The distinct elements of a list, `set(themes)`. */
  function SetOf(s: seq<string>): (r: set<string>)
    ensures forall x :: x in r <==> x in s
  {
    set x | x in s
  }

  lemma SetOfConcat(s: seq<string>, t: seq<string>)
    ensures SetOf(s + t) == SetOf(s) + SetOf(t)
  {
  }

  // ---------------------------------------------------------------------------
  // Feedback summary
  // ---------------------------------------------------------------------------

  /** How many feedback items carry `sentiment`. */
  function Count(items: seq<Obj>, sentiment: string): (n: nat)
    requires forall i :: 0 <= i < |items| ==> items[i].PDict?
    ensures n <= |items|
  {
    if items == [] then 0
    else (if GetS(items[0].entries, "sentiment", PNone) == PStr(sentiment) then 1 else 0) + Count(items[1..], sentiment)
  }

  /** Each item has at most one sentiment, so the three counts never exceed the total. */
  lemma {:induction false} CountsWithinTotal(items: seq<Obj>)
    requires forall i :: 0 <= i < |items| ==> items[i].PDict?
    ensures Count(items, "positive") + Count(items, "negative") + Count(items, "neutral") <= |items|
  {
    if items != [] {
      CountsWithinTotal(items[1..]);
      assert "positive"[0] != "negative"[0] && "positive"[0] != "neutral"[0];
      assert "negative" != "neutral" by { assert "negative"[2] != "neutral"[2]; }
    }
  }

  datatype FeedbackSummary = NoFeedback | Summary(total: nat, positive: nat, negative: nat, neutral: nat, themes: set<string>)

  function SummaryObj(s: FeedbackSummary): Obj
  {
    match s
    case NoFeedback => PDict([(PStr("summary"), PStr("无可用用户反馈"))])
    case Summary(total, positive, negative, neutral, themes) =>
      PDict([(PStr("total_feedback"), PInt(total)),
             (PStr("sentiment_breakdown"), PDict([(PStr("positive"), PInt(positive)), (PStr("negative"), PInt(negative)),
                                                  (PStr("neutral"), PInt(neutral))])),
             (PStr("key_themes"), PList(StrList(ThemeList(themes))))])
  }

  /**
   * `_summarize_user_feedback`: no summary of falsy feedback; otherwise the
   * count of items and of each sentiment, and the themes of the first ten.
   * Feedback must be iterable and every item a dict with a text message.
   */
  function SummarizeFeedback(state: Entries): (r: Result<FeedbackSummary, PyError>)
    ensures var feedback := GetS(state, "user_feedback", PList([]));
      (!Truthy(feedback) <==> r == Ok(NoFeedback))
      && (Truthy(feedback) && r.Ok? ==>
            Iterate(feedback).Ok? && FeedbackThemes(Sample(Iterate(feedback).value)).Ok?
            && (forall i :: 0 <= i < |Iterate(feedback).value| ==> Iterate(feedback).value[i].PDict?)
            && r.value.Summary? && r.value.total == |Iterate(feedback).value|
            && r.value.positive == Count(Iterate(feedback).value, "positive")
            && r.value.negative == Count(Iterate(feedback).value, "negative")
            && r.value.neutral == Count(Iterate(feedback).value, "neutral")
            && r.value.positive + r.value.negative + r.value.neutral <= r.value.total
            && r.value.themes <= AllThemes
            && r.value.themes == FeedbackThemes(Sample(Iterate(feedback).value)).value)
      && ((Truthy(feedback) && Iterate(feedback).Ok?
           && exists i :: 0 <= i < |Iterate(feedback).value| && !Iterate(feedback).value[i].PDict?) ==> r == Err(AttributeError))
  {
    var feedback := GetS(state, "user_feedback", PList([]));
    if !Truthy(feedback) then Ok(NoFeedback)
    else match Iterate(feedback)
      case Err(e) => Err(e)
      case Ok(items) =>
        if exists i :: 0 <= i < |items| && !items[i].PDict? then Err(AttributeError)
        else
          FeedbackThemesWithin(Sample(items));
          match FeedbackThemes(Sample(items))
          case Err(e) => Err(e)
          case Ok(themes) =>
            CountsWithinTotal(items);
            Ok(Summary(|items|, Count(items, "positive"), Count(items, "negative"), Count(items, "neutral"), themes))
  }

  // ---------------------------------------------------------------------------
  // Report helpers
  // ---------------------------------------------------------------------------

  /** The first `n` strategic recommendations when they are a list, none otherwise. */
  function Leading(d: Entries, n: nat): (r: seq<Obj>)
    ensures var recs := GetS(d, "strategic_recommendations", PList([]));
      (recs.PList? ==> |r| == (if |recs.items| < n then |recs.items| else n) && r == recs.items[..|r|])
      && (!recs.PList? ==> r == [])
  {
    var recs := GetS(d, "strategic_recommendations", PList([]));
    if !recs.PList? then [] else if |recs.items| < n then recs.items else recs.items[..n]
  }

  /** `_determine_next_actions`: the first three recommendations. */
  function NextActions(report: Entries): (r: seq<Obj>)
    ensures |r| <= 3 && r == Leading(report, 3)
  {
    Leading(report, 3)
  }

  /** `_extract_action_items`: the first five recommendations. */
  function ActionItems(analysis: Entries): (r: seq<Obj>)
    ensures |r| <= 5 && r == Leading(analysis, 5)
  {
    Leading(analysis, 5)
  }

  /** The next actions are the leading action items. */
  lemma NextActionsLeadActionItems(d: Entries)
    ensures NextActions(d) == ActionItems(d)[..|NextActions(d)|]
  {
  }

  // ---------------------------------------------------------------------------
  // Alerts and approvals
  // ---------------------------------------------------------------------------

  /** Two hours, in clock ticks. */
  const TwoHours := 2 * 3600

  /** The urgent task an escalated alert becomes, due two hours from now. */
  function UrgentTask(alert: Entries, taskId: string, now: nat): (t: Entries)
    ensures Lookup(t, PStr("task_id")) == Some(PStr(taskId))
    ensures Lookup(t, PStr("priority")) == Some(PStr("critical"))
    ensures Lookup(t, PStr("deadline")) == Some(PStr(Clock.Format(now + TwoHours)))
  {
    var head := [(PStr("task_id"), PStr(taskId)),
                 (PStr("title"), PStr("紧急：处理" + Show(GetS(alert, "alert_type", PStr("关键警报"))))),
                 (PStr("description"), PStr("CEO优先级：" + Show(GetS(alert, "message", PStr("需立即处理的紧急事项")))))];
    var tail := [(PStr("priority"), PStr("critical")), (PStr("deadline"), PStr(Clock.Format(now + TwoHours))),
                 (PStr("requires_immediate_action"), PBool(true))];
    assert |"task_id"| == 7 && |"title"| == 5 && |"description"| == 11 && |"priority"| == 8 && |"deadline"| == 8;
    assert !HasKey(head, PStr("priority")) && !HasKey(head, PStr("deadline"));
    assert "priority"[0] != "deadline"[0];
    assert Lookup(tail[1..], PStr("deadline")) == Some(PStr(Clock.Format(now + TwoHours)));
    LookupAppend(head, tail, PStr("priority"));
    LookupAppend(head, tail, PStr("deadline"));
    head + tail
  }

  /**
   * `_handle_alert`: a critical or high alert becomes a critical task
   * assignment for operations; any other alert gives no message.
   */
  function HandleAlert(alert: Entries, taskId: string, now: nat, id: string): (r: Option<Message>)
    ensures var sev := GetS(alert, "severity", PNone);
      r.Some? <==> sev == PStr("critical") || sev == PStr("high")
    ensures r.Some? ==> (r.value.messageType == TaskAssignment && r.value.sender == CEO && r.value.recipient == Operations
      && r.value.priority == Critical
      && Lookup(r.value.content, PStr("task")) == Some(PDict(UrgentTask(alert, taskId, now))))
  {
    var sev := GetS(alert, "severity", PNone);
    if sev == PStr("critical") || sev == PStr("high") then
      Some(CreateMessage(CEO, Operations, TaskAssignment, [(PStr("task"), PDict(UrgentTask(alert, taskId, now)))], Critical, now, id))
    else None
  }

  /** The decision the CEO falls back on when the evaluation fails: refused. */
  const FallbackDecision: Entries := [(PStr("approved"), PBool(false)), (PStr("reasoning"), PStr("当前无法评估请求。请提供更多细节。"))]

  /**
   * `_handle_approval_request`: the evaluation's reply is the decision, and a
   * failed evaluation refuses. The request is serialised into the prompt
   * before the call, so one that JSON cannot encode raises TypeError.
   */
  function HandleApprovalRequest(content: Entries, sender: Role, oracle: Result<Obj, string>, now: nat, id: string): (r: Result<Message, PyError>)
    ensures r.Err? <==> !Utils.Dumpable(PDict(content))
    ensures r.Err? ==> r.error == TypeError
    ensures r.Ok? ==> (r.value.messageType == ApprovalResponse && r.value.sender == CEO && r.value.recipient == sender
      && Lookup(r.value.content, PStr("decision")) == Some(if oracle.Ok? then oracle.value else PDict(FallbackDecision)))
    ensures r.Ok? && oracle.Err? ==> Verdict(r.value) == Some(PBool(false))
  {
    if !Utils.Dumpable(PDict(content)) then Err(TypeError)
    else
      var decision := if oracle.Ok? then oracle.value else PDict(FallbackDecision);
      var c := [(PStr("request_id"), GetS(content, "request_id", PNone)), (PStr("decision"), decision), (PStr("reviewed_by"), PStr("CEO"))];
      assert |"request_id"| == 10 && |"decision"| == 8;
      assert Lookup(c[1..], PStr("decision")) == Some(decision);
      Ok(CreateMessage(CEO, sender, ApprovalResponse, c, Medium, now, id))
  }

  // ---------------------------------------------------------------------------
  // Goal progress
  // ---------------------------------------------------------------------------

  /** `performance_metrics`; nothing in the agent updates it. */
  const PerformanceMetrics: Entries :=
    [(PStr("revenue_growth"), PFloat(0.0)), (PStr("user_growth"), PFloat(0.0)),
     (PStr("market_share"), PFloat(0.0)), (PStr("operational_efficiency"), PFloat(0.0))]

  /** `min(100, x)`: the int 100 unless `x` is below it. */
  function Min100(x: real): (r: Obj)
    ensures NumberOf(r) == Some(if x < 100.0 then x else 100.0)
  {
    if x < 100.0 then PFloat(x) else PInt(100)
  }

  datatype GoalRow = GoalRow(current: Obj, target: Obj, completion: Obj)

  function RowObj(g: GoalRow): Obj
  {
    PDict([(PStr("current"), g.current), (PStr("target"), g.target), (PStr("completion_percentage"), g.completion)])
  }

  /**
   * One goal's progress: the goal's current metric (0 when untracked)
   * against the target's `target` (100 by default); completion is
   * min(100, current / target * 100) for a positive target and 0 otherwise.
   */
  function Row(metrics: Entries, goal: Obj, target: Obj): (r: Result<GoalRow, PyError>)
    ensures r.Ok? ==> (r.value.current == Get(metrics, goal, PInt(0)) && target.PDict?
      && r.value.target == GetS(target.entries, "target", PInt(100)) && NumberOf(r.value.target).Some?)
    ensures r.Ok? ==> var t := NumberOf(r.value.target).value;
      (t <= 0.0 ==> r.value.completion == PInt(0))
      && (t > 0.0 ==> (NumberOf(r.value.current).Some?
            && var x := NumberOf(r.value.current).value / t * 100.0;
               NumberOf(r.value.completion) == Some(if x < 100.0 then x else 100.0)))
    ensures r.Ok? ==> NumberOf(r.value.completion).Some? && NumberOf(r.value.completion).value <= 100.0
    ensures r.Err? <==> (Unhashable(goal) || !target.PDict? || NumberOf(GetS(target.entries, "target", PInt(100))).None?
      || (NumberOf(GetS(target.entries, "target", PInt(100))).value > 0.0 && NumberOf(Get(metrics, goal, PInt(0))).None?))
  {
    if Unhashable(goal) then Err(TypeError)
    else
      var current := Get(metrics, goal, PInt(0));
      if !target.PDict? then Err(AttributeError)
      else
        var tv := GetS(target.entries, "target", PInt(100));
        match NumberOf(tv)
        case None => Err(TypeError)
        case Some(t) =>
          if t > 0.0 then
            match NumberOf(current)
            case None => Err(TypeError)
            case Some(c) => Ok(GoalRow(current, tv, Min100(c / t * 100.0)))
          else Ok(GoalRow(current, tv, PInt(0)))
  }

  /** The progress dict over `goals` in order, a later duplicate key overwriting; the first failure otherwise. */
  function Progress(metrics: Entries, goals: Entries): Result<Entries, PyError>
    decreases |goals|
  {
    if goals == [] then Ok([])
    else match Progress(metrics, goals[..|goals| - 1])
      case Err(e) => Err(e)
      case Ok(p) =>
        match Row(metrics, goals[|goals| - 1].0, goals[|goals| - 1].1)
        case Err(e) => Err(e)
        case Ok(row) => Ok(SetItem(p, goals[|goals| - 1].0, RowObj(row)))
  }

  /** Progress has an entry for exactly the goals. */
  lemma {:induction false} ProgressKeys(metrics: Entries, goals: Entries, k: Obj)
    requires Progress(metrics, goals).Ok?
    ensures HasKey(Progress(metrics, goals).value, k) <==> HasKey(goals, k)
    decreases |goals|
  {
    if goals != [] {
      var init := goals[..|goals| - 1];
      var last := goals[|goals| - 1];
      var p := Progress(metrics, init).value;
      var row := Row(metrics, last.0, last.1).value;
      assert Progress(metrics, goals).value == SetItem(p, last.0, RowObj(row));
      ProgressKeys(metrics, init, k);
      HasKeySnoc(goals, k);
      SetItemHasKey(p, last.0, RowObj(row), k);
    }
  }

  /** Each entry of the progress is the row of a goal with that key. */
  lemma {:induction false} ProgressRows(metrics: Entries, goals: Entries, k: Obj, v: Obj)
    requires Progress(metrics, goals).Ok? && Lookup(Progress(metrics, goals).value, k) == Some(v)
    ensures exists i :: 0 <= i < |goals| && goals[i].0 == k && IsRowOf(metrics, goals[i], v)
    decreases |goals|
  {
    var init := goals[..|goals| - 1];
    var last := goals[|goals| - 1];
    if k == last.0 {
      assert IsRowOf(metrics, goals[|goals| - 1], v);
    } else {
      ProgressRows(metrics, init, k, v);
      var i :| 0 <= i < |init| && init[i].0 == k && IsRowOf(metrics, init[i], v);
      assert goals[i] == init[i];
    }
  }

  /** `v` is the progress row of goal entry `g`. */
  predicate IsRowOf(metrics: Entries, g: (Obj, Obj), v: Obj)
  {
    Row(metrics, g.0, g.1).Ok? && v == RowObj(Row(metrics, g.0, g.1).value)
  }

  /** `self.strategic_goals.items()` needs a dict. */
  function GoalProgress(metrics: Entries, goals: Obj): (r: Result<Entries, PyError>)
    ensures !goals.PDict? ==> r == Err(AttributeError)
  {
    if goals.PDict? then Progress(metrics, goals.entries) else Err(AttributeError)
  }

  /** With no metric ever recorded, every goal with a positive target is at 0%. */
  lemma NoProgressYet(goal: Obj, target: Obj)
    requires Row(PerformanceMetrics, goal, target).Ok?
    ensures NumberOf(Row(PerformanceMetrics, goal, target).value.completion) == Some(0.0)
  {
    var m := PerformanceMetrics;
    assert forall i :: 0 <= i < |m| ==> m[i].1 == PFloat(0.0);
    ZeroLookup(m, goal);
  }

  lemma {:induction false} ZeroLookup(m: Entries, k: Obj)
    requires forall i :: 0 <= i < |m| ==> m[i].1 == PFloat(0.0)
    ensures NumberOf(Get(m, k, PInt(0))) == Some(0.0)
    decreases |m|
  {
    if m != [] && m[0].0 != k {
      ZeroLookup(m[1..], k);
    }
  }

  // ---------------------------------------------------------------------------
  // The agent's strategic state
  // ---------------------------------------------------------------------------

  /** The acknowledgement of a data response. */
  function DataReceived(sender: Role, now: nat, id: string): (m: Message)
    ensures m.messageType == Collaboration && m.sender == CEO && m.recipient == sender
    ensures Lookup(m.content, PStr("type")) == Some(PStr("data_received"))
  {
    CreateMessage(CEO, sender, Collaboration,
      [(PStr("type"), PStr("data_received")), (PStr("status"), PStr("acknowledged")), (PStr("next_action"), PStr("已纳入战略规划"))],
      Medium, now, id)
  }

  /** `strategic_goals`, replaced by an adopted plan, and the `market_trends` list. */
  class CeoAgent {
    var strategicGoals: Obj
    var marketTrends: seq<Obj>

    constructor ()
      ensures strategicGoals == PDict([]) && marketTrends == []
    {
      strategicGoals := PDict([]);
      marketTrends := [];
    }

    /** A strategic plan that was produced becomes the goals. */
    method AdoptStrategicPlan(plan: Obj)
      modifies this
      ensures strategicGoals == plan && marketTrends == old(marketTrends)
    {
      strategicGoals := plan;
    }

    /** `_handle_data_response`: market analysis is appended to the trends exactly once. */
    method HandleDataResponse(content: Entries, sender: Role, now: nat, id: string) returns (m: Message)
      modifies this
      ensures strategicGoals == old(strategicGoals)
      ensures marketTrends == old(marketTrends) + (if HasKey(content, PStr("market_analysis")) then [Lookup(content, PStr("market_analysis")).value] else [])
      ensures m == DataReceived(sender, now, id)
    {
      if HasKey(content, PStr("market_analysis")) {
        marketTrends := marketTrends + [Lookup(content, PStr("market_analysis")).value];
      }
      m := DataReceived(sender, now, id);
    }

    /** `_assess_goal_progress`: one row per goal, in the goals' order. */
    method AssessGoalProgress() returns (r: Result<Entries, PyError>)
      ensures r == GoalProgress(PerformanceMetrics, strategicGoals)
    {
      if !strategicGoals.PDict? {
        return Err(AttributeError);
      }
      var goals := strategicGoals.entries;
      var progress: Entries := [];
      var i := 0;
      while i < |goals|
        invariant 0 <= i <= |goals|
        invariant Progress(PerformanceMetrics, goals[..i]) == Ok(progress)
      {
        assert goals[..i + 1][..i] == goals[..i];
        var row := Row(PerformanceMetrics, goals[i].0, goals[i].1);
        if row.Err? {
          assert Progress(PerformanceMetrics, goals[..i + 1]) == Err(row.error);
          ProgressErrStays(PerformanceMetrics, goals, i + 1);
          return Err(row.error);
        }
        progress := SetItem(progress, goals[i].0, RowObj(row.value));
        i := i + 1;
      }
      assert goals[..i] == goals;
      r := Ok(progress);
    }
  }

  /** Once a prefix of the goals fails, the whole run fails the same way. */
  lemma {:induction false} ProgressErrStays(metrics: Entries, goals: Entries, n: nat)
    requires n <= |goals| && Progress(metrics, goals[..n]).Err?
    ensures Progress(metrics, goals) == Progress(metrics, goals[..n])
    decreases |goals| - n
  {
    if n < |goals| {
      assert goals[..n + 1][..n] == goals[..n];
      ProgressErrStays(metrics, goals, n + 1);
    } else {
      assert goals[..n] == goals;
    }
  }
}
