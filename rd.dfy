// src/agents/rd.py: the R&D agent. Task assignments are accepted from the
// CTO only, added to the agent's own task list and dispatched by title; the
// test, review and bug-fix steps update the agent's coverage and codebase
// figures in place. Its reasoning calls are oracles: `Ok(v)` is the parsed
// JSON reply, `Err(t)` the text of the exception that made the call fail.
module Rd {
  import opened Wrappers
  import opened Py
  import opened Base
  import opened Strings
  import Clock
  import Cto

  // ---------------------------------------------------------------------------
  // Dispatch
  // ---------------------------------------------------------------------------

  datatype Route = Development | Testing | Review | BugFix | Queued

  predicate DevelopmentWord(t: string) { Contains(t, "feature") || Contains(t, "implement") || Contains(t, "development") }
  predicate TestingWord(t: string) { Contains(t, "test") || Contains(t, "testing") }
  predicate ReviewWord(t: string) { Contains(t, "review") || Contains(t, "quality") }
  predicate BugWord(t: string) { Contains(t, "bug") || Contains(t, "fix") }

  /** The branch `_handle_task_assignment` takes for a lower-cased title: the first keyword group that matches wins. */
  function RouteOf(title: string): (r: Route)
    ensures r == Development <==> DevelopmentWord(title)
    ensures r == Testing <==> !DevelopmentWord(title) && TestingWord(title)
    ensures r == Review <==> !DevelopmentWord(title) && !TestingWord(title) && ReviewWord(title)
    ensures r == BugFix <==> !DevelopmentWord(title) && !TestingWord(title) && !ReviewWord(title) && BugWord(title)
    ensures r == Queued <==> !DevelopmentWord(title) && !TestingWord(title) && !ReviewWord(title) && !BugWord(title)
  {
    if DevelopmentWord(title) then Development
    else if TestingWord(title) then Testing
    else if ReviewWord(title) then Review
    else if BugWord(title) then BugFix
    else Queued
  }

  /** "testing" contains "test", so the second half of the testing check never decides anything. */
  lemma TestingContainsTest(t: string)
    ensures TestingWord(t) <==> Contains(t, "test")
  {
    if Contains(t, "testing") {
      var i :| 0 <= i <= |t| - |"testing"| && OccursAt(t, "testing", i);
      assert t[i..i + 4] == t[i..i + 7][..4];
      assert OccursAt(t, "test", i);
    }
  }

  datatype TestKind = Unit | Integration | EndToEnd

  function TestKindValue(k: TestKind): string
  {
    match k case Unit => "unit" case Integration => "integration" case EndToEnd => "e2e"
  }

  /** The test type of `_process_testing_task`: unit, else integration, else end-to-end. */
  function TestKindOf(title: string): (k: TestKind)
    ensures k == Unit <==> Contains(Lower(title), "unit")
    ensures k == Integration <==> !Contains(Lower(title), "unit") && Contains(Lower(title), "integration")
    ensures k == EndToEnd <==> !Contains(Lower(title), "unit") && !Contains(Lower(title), "integration")
  {
    if Contains(Lower(title), "unit") then Unit
    else if Contains(Lower(title), "integration") then Integration
    else EndToEnd
  }

  // ---------------------------------------------------------------------------
  // Test coverage
  // ---------------------------------------------------------------------------

  /** The `test_coverage` dict: one figure per test type and the running total. */
  datatype Coverage = Coverage(unit: real, integration: real, e2e: real, total: real)

  const InitialCoverage := Coverage(0.0, 0.0, 0.0, 0.0)

  function Component(c: Coverage, k: TestKind): real
  {
    match k case Unit => c.unit case Integration => c.integration case EndToEnd => c.e2e
  }

  predicate InRange(c: Coverage)
  {
    0.0 <= c.unit <= 100.0 && 0.0 <= c.integration <= 100.0 && 0.0 <= c.e2e <= 100.0 && 0.0 <= c.total <= 100.0
  }

  function Min100(x: real): real { if 100.0 < x then 100.0 else x }

  /**
   * `_write_tests` after a successful reply: the chosen type gains 15 points
   * up to 100, the other types keep theirs, and the total becomes the mean of
   * the four entries of the dict, the previous total among them.
   */
  function Raised(c: Coverage, k: TestKind): (r: Coverage)
    ensures Component(r, k) == Min100(Component(c, k) + 15.0)
    ensures forall j :: j != k ==> Component(r, j) == Component(c, j)
    ensures r.total == (r.unit + r.integration + r.e2e + c.total) / 4.0
    ensures InRange(c) ==> InRange(r)
    ensures InRange(c) ==> Component(c, k) <= Component(r, k)
  {
    var v := Min100(Component(c, k) + 15.0);
    var d := match k
      case Unit => c.(unit := v)
      case Integration => c.(integration := v)
      case EndToEnd => c.(e2e := v);
    d.(total := (d.unit + d.integration + d.e2e + c.total) / 4.0)
  }

  /** `n` successful test runs of one type. */
  function RaisedTimes(c: Coverage, k: TestKind, n: nat): Coverage
  {
    if n == 0 then c else Raised(RaisedTimes(c, k, n - 1), k)
  }

  /** After `n` runs the type's coverage is its start plus 15 per run, capped at 100. */
  lemma {:induction false} RaisedTimesValue(c: Coverage, k: TestKind, n: nat)
    requires Component(c, k) <= 100.0
    ensures Component(RaisedTimes(c, k, n), k) == Min100(Component(c, k) + 15.0 * n as real)
  {
    if n > 0 {
      RaisedTimesValue(c, k, n - 1);
    }
  }

  /** Seven successful runs of one type bring it to full coverage from any valid start. */
  lemma SevenRunsSaturate(c: Coverage, k: TestKind, n: nat)
    requires InRange(c) && n >= 7
    ensures Component(RaisedTimes(c, k, n), k) == 100.0
  {
    RaisedTimesValue(c, k, n);
  }

  function CoverageObj(c: Coverage): Obj
  {
    PDict([(PStr("unit"), PFloat(c.unit)), (PStr("integration"), PFloat(c.integration)),
           (PStr("e2e"), PFloat(c.e2e)), (PStr("total"), PFloat(c.total))])
  }

  // ---------------------------------------------------------------------------
  // Code review and bug fixes
  // ---------------------------------------------------------------------------

  /** The text standing for an exception raised inside a step: the source embeds `str(e)`, the model its class name. */
  function ErrorText(e: PyError): string
  {
    match e
    case AttributeError => "AttributeError" case TypeError => "TypeError" case ValueError => "ValueError"
    case KeyError => "KeyError" case ZeroDivisionError => "ZeroDivisionError" case FileNotFoundError => "FileNotFoundError"
  }

  datatype ReviewOutcome =
    | Reviewed(report: Entries, approved: bool, health: int, debt: real)
    | ReviewFailed(error: string)

  /**
   * `_review_code`: an approved review adds 2 to the codebase health (at most
   * 100); any other review adds a twentieth of its quality score (0 when
   * absent) to the technical debt. A reply that is not a dict, or a score
   * that is not a number, fails the review and changes nothing.
   */
  function ReviewCode(health: int, debt: real, oracle: Result<Obj, string>): (r: ReviewOutcome)
    ensures oracle.Err? ==> r == ReviewFailed(oracle.error)
    ensures oracle.Ok? && !oracle.value.PDict? ==> r.ReviewFailed?
    ensures r.Reviewed? ==> oracle == Ok(PDict(r.report))
    ensures r.Reviewed? ==> (r.approved <==> GetS(r.report, "approval_status", PNone) == PStr("approved"))
    ensures r.Reviewed? && r.approved ==>
      r.health == (if health + 2 < 100 then health + 2 else 100) && r.debt == debt
    ensures r.Reviewed? && !r.approved ==>
      r.health == health && NumberOf(GetS(r.report, "code_quality_score", PInt(0))).Some?
      && r.debt == debt + NumberOf(GetS(r.report, "code_quality_score", PInt(0))).value / 20.0
    ensures oracle.Ok? && oracle.value.PDict? && GetS(oracle.value.entries, "approval_status", PNone) != PStr("approved") ==>
      (r.ReviewFailed? <==> NumberOf(GetS(oracle.value.entries, "code_quality_score", PInt(0))).None?)
    ensures 0 <= health <= 100 && r.Reviewed? ==> 0 <= r.health <= 100
  {
    if oracle.Err? then ReviewFailed(oracle.error)
    else if !oracle.value.PDict? then ReviewFailed(ErrorText(AttributeError))
    else
      var report := oracle.value.entries;
      if GetS(report, "approval_status", PNone) == PStr("approved") then
        Reviewed(report, true, if health + 2 < 100 then health + 2 else 100, debt)
      else match NumberOf(GetS(report, "code_quality_score", PInt(0)))
        case None => ReviewFailed(ErrorText(TypeError))
        case Some(score) => Reviewed(report, false, health, debt + score / 20.0)
  }

  /** `_fix_bug` after a successful reply: the codebase health drops by 5, never below 0. */
  function FixedHealth(health: int): (h: int)
    ensures 0 <= h <= (if health < 0 then 0 else health)
    ensures health >= 5 ==> h == health - 5
    ensures health < 5 ==> h == 0
  {
    if health - 5 > 0 then health - 5 else 0
  }

  /** A review followed by a fix: health stays inside 0..100 whatever the replies. */
  lemma HealthStaysInRange(health: int, debt: real, oracle: Result<Obj, string>)
    requires 0 <= health <= 100
    ensures var r := ReviewCode(health, debt, oracle);
      r.Reviewed? ==> 0 <= FixedHealth(r.health) <= 100
  {
  }

  // ---------------------------------------------------------------------------
  // Features and the API documentation
  // ---------------------------------------------------------------------------

  /** The entry `_implement_feature` appends to `current_features`. */
  function FeatureRecord(task: Task, implementation: Obj, now: nat): (f: Entries)
    ensures Lookup(f, PStr("feature_id")) == Some(PStr(task.taskId))
    ensures Lookup(f, PStr("name")) == Some(PStr(task.title))
  {
    var f := [(PStr("feature_id"), PStr(task.taskId)), (PStr("name"), PStr(task.title)),
              (PStr("status"), PStr("implementation_planned")), (PStr("implementation_details"), implementation),
              (PStr("created_at"), PStr(Clock.Format(now)))];
    assert |"feature_id"| == 10 && |"name"| == 4;
    assert Lookup(f[1..], PStr("name")) == Some(PStr(task.title));
    f
  }

  /** Every feature carries the two keys the documentation reads. */
  predicate FeaturesWellFormed(fs: seq<Entries>)
  {
    forall i :: 0 <= i < |fs| ==> HasKey(fs[i], PStr("feature_id")) && HasKey(fs[i], PStr("name"))
  }

  const DocumentedFeatures := 5

  /** One endpoint of `_get_api_documentation`; `f[key]` raises KeyError for a missing key. */
  function Endpoint(f: Entries): (r: Result<Obj, PyError>)
    ensures r.Ok? <==> HasKey(f, PStr("feature_id")) && HasKey(f, PStr("name"))
    ensures r.Err? ==> r.error == KeyError
    ensures r.Ok? ==> r.value == PDict([(PStr("path"), PStr("/api/v1/features/" + Show(Lookup(f, PStr("feature_id")).value))),
                                        (PStr("method"), PStr("GET")),
                                        (PStr("description"), Lookup(f, PStr("name")).value)])
  {
    match Lookup(f, PStr("feature_id"))
    case None => Err(KeyError)
    case Some(id) =>
      match Lookup(f, PStr("name"))
      case None => Err(KeyError)
      case Some(name) =>
        Ok(PDict([(PStr("path"), PStr("/api/v1/features/" + Show(id))), (PStr("method"), PStr("GET")),
                  (PStr("description"), name)]))
  }

  /** The endpoint list of `_get_api_documentation`: the first five features, in order. */
  function ApiEndpoints(features: seq<Entries>): (r: Result<seq<Obj>, PyError>)
    ensures r.Ok? <==> forall i :: 0 <= i < |features| && i < DocumentedFeatures ==> Endpoint(features[i]).Ok?
    ensures r.Ok? ==> |r.value| == (if |features| < DocumentedFeatures then |features| else DocumentedFeatures)
    ensures r.Ok? ==> forall i :: 0 <= i < |r.value| ==> Ok(r.value[i]) == Endpoint(features[i])
  {
    var n := if |features| < DocumentedFeatures then |features| else DocumentedFeatures;
    var rs := seq(n, i requires 0 <= i < n => Endpoint(features[i]));
    CollectSpec(rs);
    assert forall i :: 0 <= i < |features| && i < DocumentedFeatures ==> rs[i] == Endpoint(features[i]);
    Collect(rs)
  }

  /** The agent's own features always document without error. */
  lemma WellFormedDocuments(features: seq<Entries>)
    requires FeaturesWellFormed(features)
    ensures ApiEndpoints(features).Ok?
  {
  }

  /** `_get_api_documentation`. */
  function ApiDocumentation(features: seq<Entries>, now: nat): (r: Result<Entries, PyError>)
    ensures r.Ok? <==> ApiEndpoints(features).Ok?
    ensures r.Ok? ==> Lookup(r.value, PStr("endpoints")) == Some(PList(ApiEndpoints(features).value))
  {
    match ApiEndpoints(features)
    case Err(e) => Err(e)
    case Ok(endpoints) =>
      Ok([(PStr("endpoints"), PList(endpoints)), (PStr("version"), PStr("1.0.0")),
          (PStr("documentation_updated"), PStr(Clock.Format(now)))])
  }

  /** The first feature whose `feature_id` (None when absent) equals `id`. */
  function FindFeature(features: seq<Entries>, id: Obj): (r: Option<nat>)
    ensures r.Some? ==> r.value < |features| && GetS(features[r.value], "feature_id", PNone) == id
    ensures r.Some? ==> forall j :: 0 <= j < r.value ==> GetS(features[j], "feature_id", PNone) != id
    ensures r.None? ==> forall j :: 0 <= j < |features| ==> GetS(features[j], "feature_id", PNone) != id
  {
    if features == [] then None
    else if GetS(features[0], "feature_id", PNone) == id then Some(0)
    else match FindFeature(features[1..], id)
      case None => None
      case Some(k) => Some(k + 1)
  }

  // ---------------------------------------------------------------------------
  // Deployment approval
  // ---------------------------------------------------------------------------

  /** `_process_deployment_approval_request` approves at a readiness of 70 or more. */
  predicate DeploymentApproved(details: Entries)
  {
    Cto.Readiness(details) >= 70
  }

  /** A score of 70 tolerates one missing item, whichever it is, and never two. */
  lemma ApprovedIffAtMostOneMissing(details: Entries)
    ensures var missing := (if Cto.Has(details, "testing_completed") then 0 else 1)
                         + (if Cto.Has(details, "documentation_updated") then 0 else 1)
                         + (if Cto.Has(details, "rollback_plan") then 0 else 1)
                         + (if Cto.Has(details, "performance_testing") then 0 else 1);
      DeploymentApproved(details) <==> missing <= 1
  {
  }

  /** A deployment without completed testing but with everything else is approved here, and refused by the CTO. */
  lemma UntestedDeploymentApproved(details: Entries)
    requires !Cto.Has(details, "testing_completed") && Cto.Has(details, "documentation_updated")
    requires Cto.Has(details, "rollback_plan") && Cto.Has(details, "performance_testing")
    ensures DeploymentApproved(details)
    ensures !Truthy(Cto.DeploymentApproval(details))
  {
  }

  /** Whatever the CTO's rules approve, these approve. */
  lemma CtoApprovalImpliesRd(details: Entries)
    requires Truthy(Cto.DeploymentApproval(details))
    ensures DeploymentApproved(details)
  {
  }

  const HighRiskWindow := "Weekend 2-4 AM"
  const MediumRiskWindow := "Weekday 10-12 PM"
  const LowRiskWindow := "Any time with monitoring"

  /** `_suggest_deployment_window` by `risk_level` (medium when absent). */
  function DeploymentWindow(details: Entries): (r: string)
    ensures var risk := GetS(details, "risk_level", PStr("medium"));
      (r == HighRiskWindow <==> risk == PStr("high"))
      && (r == MediumRiskWindow <==> risk == PStr("medium"))
      && (r == LowRiskWindow <==> risk != PStr("high") && risk != PStr("medium"))
  {
    var risk := GetS(details, "risk_level", PStr("medium"));
    assert |HighRiskWindow| == 14 && |MediumRiskWindow| == 16 && |LowRiskWindow| == 24;
    if risk == PStr("high") then HighRiskWindow
    else if risk == PStr("medium") then MediumRiskWindow
    else LowRiskWindow
  }

  /** The reply to a deployment approval request; the details must be a dict. */
  function DeploymentApprovalReply(content: Entries, now: nat, id: string): (r: Result<Message, PyError>)
    ensures var details := GetS(content, "deployment_details", PDict([]));
      (r.Ok? <==> details.PDict?)
      && (r.Ok? ==> (r.value.messageType == ApprovalResponse && r.value.recipient == CTO
            && exists d :: Lookup(r.value.content, PStr("decision")) == Some(PDict(d))
                 && Lookup(d, PStr("approved")) == Some(PBool(DeploymentApproved(details.entries)))))
  {
    var details := GetS(content, "deployment_details", PDict([]));
    if !details.PDict? then Err(AttributeError)
    else
      var dd := details.entries;
      var assessment := [(PStr("readiness_score"), PFloat(Cto.Readiness(dd) as real)),
                         (PStr("rollback_plan"), PBool(Cto.Has(dd, "rollback_plan"))),
                         (PStr("performance_impact"), PStr(if Cto.Has(dd, "performance_testing") then "minimal" else "unknown")),
                         (PStr("security_checks"), GetS(dd, "security_scan_completed", PBool(false)))];
      var d := [(PStr("approved"), PBool(DeploymentApproved(dd))), (PStr("assessment"), PDict(assessment)),
                (PStr("deployment_window"), PStr(DeploymentWindow(dd)))];
      var c := [(PStr("request_id"), Get(content, PStr("request_id"), PNone)), (PStr("decision"), PDict(d)),
                (PStr("prepared_by"), PStr(RoleValue(RD)))];
      assert |"request_id"| == 10 && |"decision"| == 8;
      assert Lookup(c[1..], PStr("decision")) == Some(PDict(d));
      Ok(CreateMessage(RD, CTO, ApprovalResponse, c, Medium, now, id))
  }

  /** The reply to a feature completion request: a report for a known feature, "feature_not_found" otherwise. */
  function FeatureCompletionReply(features: seq<Entries>, coverage: Coverage, health: int, content: Entries,
                                  now: nat, id: string): (m: Message)
    ensures m.messageType == Collaboration && m.recipient == CTO
    ensures var fid := GetS(content, "feature_id", PStr(""));
      Lookup(m.content, PStr("type")) == Some(PStr(if FindFeature(features, fid).Some? then "feature_completion_report" else "feature_not_found"))
  {
    var fid := GetS(content, "feature_id", PStr(""));
    if FindFeature(features, fid).Some? then
      CreateMessage(RD, CTO, Collaboration,
                    [(PStr("type"), PStr("feature_completion_report")), (PStr("feature_id"), fid),
                     (PStr("status"), PStr("completed")), (PStr("test_coverage"), CoverageObj(coverage)),
                     (PStr("code_quality"), PInt(health)), (PStr("timestamp"), PStr(Clock.Format(now)))],
                    Medium, now, id)
    else
      CreateMessage(RD, CTO, Collaboration,
                    [(PStr("type"), PStr("feature_not_found")), (PStr("feature_id"), fid), (PStr("status"), PStr("unknown"))],
                    Medium, now, id)
  }

  /** `_handle_approval_request`: deployments and feature completions are answered, anything else is not. */
  function HandleApprovalRequest(features: seq<Entries>, coverage: Coverage, health: int, content: Entries,
                                 now: nat, id: string): (r: Result<Option<Message>, PyError>)
    ensures var t := GetS(content, "request_type", PStr(""));
      (t == PStr("deployment") ==>
         (match DeploymentApprovalReply(content, now, id) case Ok(m) => r == Ok(Some(m)) case Err(e) => r == Err(e)))
      && (t == PStr("feature_completion") ==> r == Ok(Some(FeatureCompletionReply(features, coverage, health, content, now, id))))
      && (t != PStr("deployment") && t != PStr("feature_completion") ==> r == Ok(None))
  {
    var t := GetS(content, "request_type", PStr(""));
    if t == PStr("deployment") then
      match DeploymentApprovalReply(content, now, id)
      case Err(e) => Err(e)
      case Ok(m) => Ok(Some(m))
    else if t == PStr("feature_completion") then Ok(Some(FeatureCompletionReply(features, coverage, health, content, now, id)))
    else Ok(None)
  }

  // ---------------------------------------------------------------------------
  // Replies
  // ---------------------------------------------------------------------------

  /** The refusal sent to any sender but the CTO. */
  function Rejection(sender: Role, now: nat, id: string): (m: Message)
    ensures m.messageType == Collaboration && m.sender == RD && m.recipient == sender
    ensures Lookup(m.content, PStr("type")) == Some(PStr("task_rejection"))
  {
    CreateMessage(RD, sender, Collaboration,
                  [(PStr("type"), PStr("task_rejection")), (PStr("reason"), PStr("Only CTO can assign tasks to RD"))],
                  Medium, now, id)
  }

  /** A reply from R&D to the CTO whose content starts with its `type`. */
  function ToCto(t: MessageType, kind: string, rest: Entries, priority: Priority, now: nat, id: string): (m: Message)
    ensures m.messageType == t && m.sender == RD && m.recipient == CTO && m.priority == priority
    ensures Lookup(m.content, PStr("type")) == Some(PStr(kind))
  {
    CreateMessage(RD, CTO, t, [(PStr("type"), PStr(kind))] + rest, priority, now, id)
  }

  /**
   * A failure alert as the R&D handlers write it: `create_message(...,
   * severity=...)`. `create_message` has no `severity` parameter, so the
   * call raises TypeError.
   */
  function CreateMessageWithSeverity(sender: Role, recipient: Role, t: MessageType, content: Entries,
                                     severity: Priority, now: nat, id: string): Result<Message, PyError>
  {
    Err(TypeError)
  }

  /** The failure alert of a development, testing or bug-fix step, as written. */
  function FailureAlertAsWritten(alertType: string, text: string, error: string, now: nat, id: string): Result<Message, PyError>
  {
    CreateMessageWithSeverity(RD, CTO, Alert,
                              [(PStr("alert_type"), PStr(alertType)), (PStr("message"), PStr(text)), (PStr("error"), PStr(error))],
                              High, now, id)
  }

  /** No failure alert is ever delivered: the handler raises instead. */
  lemma FailureAlertNeverSent(alertType: string, text: string, error: string, now: nat, id: string)
    ensures FailureAlertAsWritten(alertType, text, error, now, id) == Err(TypeError)
  {
  }

  /** The failure alert as intended: a high-priority alert to the CTO. */
  function FailureAlert(alertType: string, text: string, error: string, now: nat, id: string): (m: Message)
    ensures m.messageType == Alert && m.sender == RD && m.recipient == CTO && m.priority == High
    ensures Lookup(m.content, PStr("alert_type")) == Some(PStr(alertType))
    ensures Lookup(m.content, PStr("error")) == Some(PStr(error))
  {
    var c := [(PStr("alert_type"), PStr(alertType)), (PStr("message"), PStr(text)), (PStr("error"), PStr(error))];
    assert |"alert_type"| == 10 && |"message"| == 7 && |"error"| == 5;
    assert Lookup(c[2..], PStr("error")) == Some(PStr(error));
    assert Lookup(c[1..], PStr("error")) == Some(PStr(error));
    CreateMessage(RD, CTO, Alert, c, High, now, id)
  }

  /** The two alert types R&D escalates. */
  predicate Escalated(content: Entries)
  {
    Get(content, PStr("alert_type"), PNone) == PStr("deployment_failure")
    || Get(content, PStr("alert_type"), PNone) == PStr("high_priority_bug")
  }

  /** `_handle_alert` as written: both escalations pass `severity=` to `create_message`. */
  function HandleAlertAsWritten(content: Entries, now: nat, id: string): (r: Result<Option<Message>, PyError>)
    ensures !Escalated(content) ==> r == Ok(None)
  {
    var t := Get(content, PStr("alert_type"), PNone);
    if t == PStr("deployment_failure") then
      match CreateMessageWithSeverity(RD, CTO, Alert,
              [(PStr("alert_type"), PStr("deployment_issue")),
               (PStr("message"), PStr("Deployment issue detected: " + Show(GetS(content, "message", PStr("Unknown"))))),
               (PStr("recommended_action"), PStr("Review logs and rollback if necessary"))], Critical, now, id)
      case Err(e) => Err(e)
      case Ok(m) => Ok(Some(m))
    else if t == PStr("high_priority_bug") then
      match CreateMessageWithSeverity(RD, CTO, Alert,
              [(PStr("alert_type"), PStr("high_priority_bug_detected")),
               (PStr("message"), GetS(content, "message", PStr("High priority bug detected"))),
               (PStr("recommended_action"), PStr("Immediate investigation required"))], Critical, now, id)
      case Err(e) => Err(e)
      case Ok(m) => Ok(Some(m))
    else Ok(None)
  }

  /** Every escalation raises instead of reaching the CTO. */
  lemma EscalationsNeverSent(content: Entries, now: nat, id: string)
    requires Escalated(content)
    ensures HandleAlertAsWritten(content, now, id) == Err(TypeError)
  {
  }

  /** `_handle_alert` as intended: both escalations reach the CTO at critical priority. */
  function HandleAlert(content: Entries, now: nat, id: string): (r: Option<Message>)
    ensures r.Some? <==> Escalated(content)
    ensures r.Some? ==> r.value.messageType == Alert && r.value.recipient == CTO && r.value.priority == Critical
    ensures Get(content, PStr("alert_type"), PNone) == PStr("deployment_failure") ==>
      r.Some? && Lookup(r.value.content, PStr("alert_type")) == Some(PStr("deployment_issue"))
    ensures Get(content, PStr("alert_type"), PNone) == PStr("high_priority_bug") ==>
      r.Some? && Lookup(r.value.content, PStr("alert_type")) == Some(PStr("high_priority_bug_detected"))
  {
    var t := Get(content, PStr("alert_type"), PNone);
    if t == PStr("deployment_failure") then
      Some(CreateMessage(RD, CTO, Alert,
             [(PStr("alert_type"), PStr("deployment_issue")),
              (PStr("message"), PStr("Deployment issue detected: " + Show(GetS(content, "message", PStr("Unknown"))))),
              (PStr("recommended_action"), PStr("Review logs and rollback if necessary"))], Critical, now, id))
    else if t == PStr("high_priority_bug") then
      Some(CreateMessage(RD, CTO, Alert,
             [(PStr("alert_type"), PStr("high_priority_bug_detected")),
              (PStr("message"), GetS(content, "message", PStr("High priority bug detected"))),
              (PStr("recommended_action"), PStr("Immediate investigation required"))], Critical, now, id))
    else None
  }

  // ---------------------------------------------------------------------------
  // Tasks
  // ---------------------------------------------------------------------------

  /** The strings of a list value; anything else gives none. */
  function StringsOf(o: Obj): seq<string>
  {
    if o.PList? && forall i :: 0 <= i < |o.items| ==> o.items[i].PStr? then
      seq(|o.items|, i requires 0 <= i < |o.items| && o.items[i].PStr? => o.items[i].s)
    else []
  }

  /**
   * The `Task(...)` built from an assignment from the CTO: its own id when
   * given (a fresh one otherwise), the requested priority and the parsed
   * deadline. The title is text.
   */
  function ParseTask(data: Entries, freshId: string, now: nat): (r: Result<Task, PyError>)
    requires GetS(data, "title", PStr("")).PStr?
    ensures r.Ok? <==> PriorityByValue(GetS(data, "priority", PStr("medium"))).Ok?
                       && DeadlineOf(Get(data, PStr("deadline"), PNone)).Ok?
    ensures r.Ok? ==> r.value.assignedTo == RD && r.value.assignedBy == CTO && r.value.status == "pending"
    ensures r.Ok? ==> r.value.title == GetS(data, "title", PStr("")).s
    ensures r.Ok? ==> r.value.taskId == Show(GetS(data, "task_id", PStr(freshId)))
    ensures r.Ok? ==> Ok(r.value.priority) == PriorityByValue(GetS(data, "priority", PStr("medium")))
  {
    match PriorityByValue(GetS(data, "priority", PStr("medium")))
    case Err(e) => Err(e)
    case Ok(priority) =>
      match DeadlineOf(Get(data, PStr("deadline"), PNone))
      case Err(e) => Err(e)
      case Ok(deadline) =>
        Ok(Task(Show(GetS(data, "task_id", PStr(freshId))), GetS(data, "title", PStr("")).s,
                Show(GetS(data, "description", PStr(""))), RD, CTO, priority, "pending",
                StringsOf(GetS(data, "dependencies", PList([]))), StringsOf(GetS(data, "deliverables", PList([]))),
                deadline, now, now, []))
  }

  const RdCapabilities := ["功能实现", "测试", "代码审查", "部署", "文档编写", "Bug修复", "Python开发", "TypeScript开发"]

  const InitialHealth := 85

  class RdAgent {
    const base: BaseAgent
    var currentFeatures: seq<Entries>
    /** `codebase_status["overall_health"]`. */
    var overallHealth: int
    /** `codebase_status["technical_debt_score"]`. */
    var technicalDebtScore: real
    /** `codebase_status["build_status"]`. */
    var buildStatus: string
    var coverage: Coverage
    /** `deployment_status["environment"]`. */
    var environment: string

    ghost predicate Valid()
      reads this, base
    {
      base.Valid() && base.role == RD && 0 <= overallHealth <= 100 && InRange(coverage)
      && FeaturesWellFormed(currentFeatures)
    }

    constructor (now: nat)
      ensures Valid() && fresh(base)
      ensures base.state == AgentState(RD, [], [], [], [], RdCapabilities, 0.0, now)
      ensures currentFeatures == [] && overallHealth == InitialHealth && technicalDebtScore == 0.0
      ensures buildStatus == "passing" && coverage == InitialCoverage && environment == "development"
    {
      base := new BaseAgent(RD, RdCapabilities, now);
      currentFeatures := [];
      overallHealth := InitialHealth;
      technicalDebtScore := 0.0;
      buildStatus := "passing";
      coverage := InitialCoverage;
      environment := "development";
    }

    /** The reply of a development step that succeeded. */
    static function FeatureImplemented(task: Task, plan: Obj, now: nat, id: string): Message
    {
      ToCto(Collaboration, "feature_implemented",
            [(PStr("feature_id"), PStr(task.taskId)), (PStr("implementation_plan"), plan),
             (PStr("next_steps"), PList(StrList(["Write tests", "Code review", "Deployment"])))], Medium, now, id)
    }

    /** The reply of a testing step that succeeded, with the coverage after it. */
    static function TestsWritten(task: Task, c: Coverage, now: nat, id: string): Message
    {
      ToCto(StatusReport, "test_completion",
            [(PStr("feature_id"), PStr(task.taskId)), (PStr("test_type"), PStr(TestKindValue(TestKindOf(task.title)))),
             (PStr("test_coverage"), CoverageObj(c)), (PStr("timestamp"), PStr(Clock.Format(now)))], Medium, now, id)
    }

    /** The reply of a review step. */
    static function ReviewReply(r: ReviewOutcome, now: nat, id: string): Message
    {
      match r
      case Reviewed(report, approved, _, _) =>
        ToCto(Collaboration, "code_review_completion",
              [(PStr("review_report"), PDict(report)), (PStr("approved"), PBool(approved))], Medium, now, id)
      case ReviewFailed(error) =>
        ToCto(Collaboration, "code_review_error",
              [(PStr("message"), PStr("Code review failed")), (PStr("error"), PStr(error))], Medium, now, id)
    }

    /** The reply of a bug-fix step that succeeded. */
    static function FixStarted(task: Task, plan: Obj, now: nat, id: string): Message
    {
      ToCto(Collaboration, "bug_fix_started",
            [(PStr("bug_id"), PStr(task.taskId)), (PStr("fix_plan"), plan),
             (PStr("estimated_resolution"), PStr("2-4 hours"))], Medium, now, id)
    }

    /** The acknowledgement of a task no group matched. */
    static function TaskQueued(task: Task, now: nat, id: string): Message
    {
      ToCto(Collaboration, "task_received",
            [(PStr("task_id"), PStr(task.taskId)), (PStr("status"), PStr("queued")),
             (PStr("notes"), PStr("Task will be processed based on priority"))], Medium, now, id)
    }

    /** The development step: a planned implementation is recorded and the build marked as building. */
    twostate predicate DevelopmentStep(task: Task, oracle: Result<Obj, string>, now: nat, id: string, new r: Result<Message, PyError>)
      reads this
    {
      (if oracle.Ok? then
         currentFeatures == old(currentFeatures) + [FeatureRecord(task, oracle.value, now)] && buildStatus == "building"
         && r == Ok(FeatureImplemented(task, oracle.value, now, id))
       else
         currentFeatures == old(currentFeatures) && buildStatus == old(buildStatus)
         && r == FailureAlertAsWritten("feature_implementation_failed", "Failed to implement feature " + task.title, oracle.error, now, id))
      && overallHealth == old(overallHealth) && technicalDebtScore == old(technicalDebtScore)
      && coverage == old(coverage) && environment == old(environment)
    }

    /** The testing step: successful tests raise the coverage of the title's test type. */
    twostate predicate TestingStep(task: Task, oracle: Result<Obj, string>, now: nat, id: string, new r: Result<Message, PyError>)
      reads this
    {
      (if oracle.Ok? then
         coverage == Raised(old(coverage), TestKindOf(task.title)) && r == Ok(TestsWritten(task, coverage, now, id))
       else
         coverage == old(coverage)
         && r == FailureAlertAsWritten("testing_failed", "Failed to generate tests for " + task.title, oracle.error, now, id))
      && currentFeatures == old(currentFeatures) && buildStatus == old(buildStatus)
      && overallHealth == old(overallHealth) && technicalDebtScore == old(technicalDebtScore)
      && environment == old(environment)
    }

    /** The review step: the verdict moves health or technical debt. */
    twostate predicate ReviewStep(oracle: Result<Obj, string>, now: nat, id: string, new r: Result<Message, PyError>)
      reads this
    {
      var v := ReviewCode(old(overallHealth), old(technicalDebtScore), oracle);
      (if v.Reviewed? then overallHealth == v.health && technicalDebtScore == v.debt
       else overallHealth == old(overallHealth) && technicalDebtScore == old(technicalDebtScore))
      && r == Ok(ReviewReply(v, now, id))
      && currentFeatures == old(currentFeatures) && buildStatus == old(buildStatus)
      && coverage == old(coverage) && environment == old(environment)
    }

    /** The bug-fix step: a fix plan costs 5 health and marks the environment as fixing. */
    twostate predicate BugFixStep(task: Task, oracle: Result<Obj, string>, now: nat, id: string, new r: Result<Message, PyError>)
      reads this
    {
      (if oracle.Ok? then
         overallHealth == FixedHealth(old(overallHealth)) && environment == "fix_in_progress"
         && r == Ok(FixStarted(task, oracle.value, now, id))
       else
         overallHealth == old(overallHealth) && environment == old(environment)
         && r == FailureAlertAsWritten("bug_fix_failed", "Failed to fix bug " + task.title, oracle.error, now, id))
      && currentFeatures == old(currentFeatures) && buildStatus == old(buildStatus)
      && coverage == old(coverage) && technicalDebtScore == old(technicalDebtScore)
    }

    /** The step the task's lower-cased title selects. */
    twostate predicate Dispatched(task: Task, oracle: Result<Obj, string>, now: nat, id: string, new r: Result<Message, PyError>)
      reads this
    {
      match RouteOf(Lower(task.title))
      case Development => DevelopmentStep(task, oracle, now, id, r)
      case Testing => TestingStep(task, oracle, now, id, r)
      case Review => ReviewStep(oracle, now, id, r)
      case BugFix => BugFixStep(task, oracle, now, id, r)
      case Queued =>
        r == Ok(TaskQueued(task, now, id))
        && currentFeatures == old(currentFeatures) && buildStatus == old(buildStatus) && coverage == old(coverage)
        && overallHealth == old(overallHealth) && technicalDebtScore == old(technicalDebtScore)
        && environment == old(environment)
    }

    /** `_process_development_task`. */
    method ProcessDevelopmentTask(task: Task, oracle: Result<Obj, string>, now: nat, id: string) returns (r: Result<Message, PyError>)
      requires Valid()
      modifies this
      ensures Valid() && DevelopmentStep(task, oracle, now, id, r)
      ensures oracle.Err? ==> r == Err(TypeError)
    {
      if oracle.Ok? {
        currentFeatures := currentFeatures + [FeatureRecord(task, oracle.value, now)];
        buildStatus := "building";
        r := Ok(FeatureImplemented(task, oracle.value, now, id));
      } else {
        r := FailureAlertAsWritten("feature_implementation_failed", "Failed to implement feature " + task.title, oracle.error, now, id);
      }
    }

    /** `_process_testing_task`. */
    method ProcessTestingTask(task: Task, oracle: Result<Obj, string>, now: nat, id: string) returns (r: Result<Message, PyError>)
      requires Valid()
      modifies this
      ensures Valid() && TestingStep(task, oracle, now, id, r)
      ensures oracle.Err? ==> r == Err(TypeError)
    {
      if oracle.Ok? {
        coverage := Raised(coverage, TestKindOf(task.title));
        r := Ok(TestsWritten(task, coverage, now, id));
      } else {
        r := FailureAlertAsWritten("testing_failed", "Failed to generate tests for " + task.title, oracle.error, now, id);
      }
    }

    /** `_process_code_review_task`. */
    method ProcessCodeReviewTask(oracle: Result<Obj, string>, now: nat, id: string) returns (r: Result<Message, PyError>)
      requires Valid()
      modifies this
      ensures Valid() && ReviewStep(oracle, now, id, r)
    {
      var v := ReviewCode(overallHealth, technicalDebtScore, oracle);
      if v.Reviewed? {
        overallHealth := v.health;
        technicalDebtScore := v.debt;
      }
      r := Ok(ReviewReply(v, now, id));
    }

    /** `_process_bug_fix_task`. */
    method ProcessBugFixTask(task: Task, oracle: Result<Obj, string>, now: nat, id: string) returns (r: Result<Message, PyError>)
      requires Valid()
      modifies this
      ensures Valid() && BugFixStep(task, oracle, now, id, r)
      ensures oracle.Err? ==> r == Err(TypeError)
    {
      if oracle.Ok? {
        overallHealth := FixedHealth(overallHealth);
        environment := "fix_in_progress";
        r := Ok(FixStarted(task, oracle.value, now, id));
      } else {
        r := FailureAlertAsWritten("bug_fix_failed", "Failed to fix bug " + task.title, oracle.error, now, id);
      }
    }

    /** The dispatch by title keyword. */
    method Dispatch(task: Task, oracle: Result<Obj, string>, now: nat, id: string) returns (r: Result<Message, PyError>)
      requires Valid()
      modifies this
      ensures Valid() && Dispatched(task, oracle, now, id, r)
    {
      match RouteOf(Lower(task.title))
      case Development => r := ProcessDevelopmentTask(task, oracle, now, id);
      case Testing => r := ProcessTestingTask(task, oracle, now, id);
      case Review => r := ProcessCodeReviewTask(oracle, now, id);
      case BugFix => r := ProcessBugFixTask(task, oracle, now, id);
      case Queued => r := Ok(TaskQueued(task, now, id));
    }

    /**
     * `_handle_task_assignment`. The task must be a dict with a text title.
     * A sender other than the CTO is refused and nothing changes. Otherwise
     * the task is parsed, added to the agent's tasks and dispatched by its
     * title.
     */
    method HandleTaskAssignment(content: Entries, sender: Role, freshId: string, oracle: Result<Obj, string>,
                                now: nat, id: string) returns (r: Result<Message, PyError>)
      requires Valid()
      modifies this, base
      ensures Valid()
      ensures var data := GetS(content, "task", PDict([]));
        !data.PDict? || !GetS(data.entries, "title", PStr("")).PStr? ==>
          r == Err(AttributeError) && base.state == old(base.state) && unchanged(this)
      ensures var data := GetS(content, "task", PDict([]));
        data.PDict? && GetS(data.entries, "title", PStr("")).PStr? && sender != CTO ==>
          r == Ok(Rejection(sender, now, id)) && base.state == old(base.state) && unchanged(this)
      ensures var data := GetS(content, "task", PDict([]));
        data.PDict? && GetS(data.entries, "title", PStr("")).PStr? && sender == CTO
        && ParseTask(data.entries, freshId, now).Err? ==>
          r == Err(ParseTask(data.entries, freshId, now).error) && base.state == old(base.state) && unchanged(this)
      ensures var data := GetS(content, "task", PDict([]));
        data.PDict? && GetS(data.entries, "title", PStr("")).PStr? && sender == CTO
        && ParseTask(data.entries, freshId, now).Ok? ==>
          var task := ParseTask(data.entries, freshId, now).value;
          base.state == old(base.state).(currentTasks := old(base.state).currentTasks + [task],
                                         workload := Clamp01(old(base.state).workload + 0.1), lastActive := now)
          && Dispatched(task, oracle, now, id, r)
    {
      var data := GetS(content, "task", PDict([]));
      if !data.PDict? || !GetS(data.entries, "title", PStr("")).PStr? {
        return Err(AttributeError);
      }
      if sender != CTO {
        return Ok(Rejection(sender, now, id));
      }
      var parsed := ParseTask(data.entries, freshId, now);
      if parsed.Err? {
        return Err(parsed.error);
      }
      var task := parsed.value;
      base.AddTask(task, now);
      r := Dispatch(task, oracle, now, id);
    }
  }
}
