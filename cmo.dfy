// src/agents/cmo.py: the CMO's campaign metrics, which data responses
// update in place, and its task, alert and report rules.
module Cmo {
  import opened Wrappers
  import opened Py
  import opened Base
  import Strings

  // ---------------------------------------------------------------------------
  // Python operators the metric updates use
  // ---------------------------------------------------------------------------

  /** `a + b` on numbers: whole numbers (and bools) stay whole, a float makes a float; other operands raise TypeError. */
  function Add(a: Obj, b: Obj): (r: Result<Obj, PyError>)
    ensures r.Ok? <==> NumberOf(a).Some? && NumberOf(b).Some?
    ensures r.Err? ==> r.error == TypeError
    ensures r.Ok? ==> NumberOf(r.value) == Some(NumberOf(a).value + NumberOf(b).value)
  {
    if (a.PInt? || a.PBool?) && (b.PInt? || b.PBool?) then
      Ok(PInt(NumberOf(a).value.Floor + NumberOf(b).value.Floor))
    else if NumberOf(a).Some? && NumberOf(b).Some? then Ok(PFloat(NumberOf(a).value + NumberOf(b).value))
    else Err(TypeError)
  }

  /** `k in o` for the container kinds: dict keys, list and tuple items, substrings; anything else raises TypeError. */
  function In(k: string, o: Obj): (r: Result<bool, PyError>)
    ensures o.PDict? ==> r == Ok(HasKey(o.entries, PStr(k)))
    ensures r.Err? <==> !(o.PDict? || o.PList? || o.PTuple? || o.PStr?)
  {
    match o
    case PDict(e) => Ok(HasKey(e, PStr(k)))
    case PList(items) => Ok(PStr(k) in items)
    case PTuple(items) => Ok(PStr(k) in items)
    case PStr(s) => Ok(Strings.Contains(s, k))
    case _ => Err(TypeError)
  }

  /** None of the keys is `in` a value that is not a dict (so nothing subscripts it). */
  predicate NoneFound(o: Obj)
  {
    In("conversion_rate", o) == Ok(false) && In("total_leads", o) == Ok(false)
    && In("revenue_generated", o) == Ok(false) && In("campaign_success", o) == Ok(false)
  }

  /** `d[k]` can be added to a number, or `d` has no `k` (so nothing is added). */
  predicate Summable(d: Entries, k: string)
  {
    !HasKey(d, PStr(k)) || NumberOf(Lookup(d, PStr(k)).value).Some?
  }

  /** What a summable entry adds: its number, or 0 when absent. */
  function Increment(d: Entries, k: string): real
    requires Summable(d, k)
  {
    if HasKey(d, PStr(k)) then NumberOf(Lookup(d, PStr(k)).value).value else 0.0
  }

  // ---------------------------------------------------------------------------
  // Pure rules
  // ---------------------------------------------------------------------------

  /** `_determine_marketing_next_actions`: the first five recommendations when they are a list. */
  function NextActions(report: Entries): (r: seq<Obj>)
    ensures var recs := GetS(report, "recommendations", PList([]));
      (recs.PList? ==> r == recs.items[..if |recs.items| < 5 then |recs.items| else 5])
      && (!recs.PList? ==> r == [])
    ensures |r| <= 5
  {
    var recs := GetS(report, "recommendations", PList([]));
    if recs.PList? then
      if |recs.items| <= 5 then recs.items else recs.items[..5]
    else []
  }

  /** Next actions never invent a recommendation: they are a prefix of the list. */
  lemma NextActionsPrefix(report: Entries, i: nat)
    requires GetS(report, "recommendations", PList([])).PList?
    requires i < |NextActions(report)|
    ensures i < 5 && NextActions(report)[i] == GetS(report, "recommendations", PList([])).items[i]
  {
  }

  /**
   * `_handle_task_assignment`: a marketing or campaign task is passed to
   * operations, flagged `{"marketing": True}`; any other title gives no
   * message. The task must be a dict with a text title.
   */
  function HandleTaskAssignment(content: Entries, taskId: string, msgId: string, now: nat): (r: Result<Option<Message>, PyError>)
    ensures var task := GetS(content, "task", PDict([]));
      (!task.PDict? || !GetS(task.entries, "title", PStr("")).PStr?) ==> r == Err(AttributeError)
    ensures var task := GetS(content, "task", PDict([]));
      task.PDict? && GetS(task.entries, "title", PStr("")).PStr? ==>
        var title := Strings.Lower(GetS(task.entries, "title", PStr("")).s);
        (r == Ok(None) <==> !(Strings.Contains(title, "marketing") || Strings.Contains(title, "campaign")))
    ensures r.Ok? && r.value.Some? ==>
      r.value.value.messageType == TaskAssignment && r.value.value.sender == CMO && r.value.value.recipient == Operations
      && AssignedMetadata(r.value.value) == Some(PDict([(PStr("marketing"), PBool(true))]))
  {
    var r := DelegateByTitle(content, ["marketing", "campaign"], CMO, Operations, taskId, msgId, now, [(PStr("marketing"), PBool(true))]);
    var task := GetS(content, "task", PDict([]));
    if task.PDict? && GetS(task.entries, "title", PStr("")).PStr? then
      var title := Strings.Lower(GetS(task.entries, "title", PStr("")).s);
      Strings.ContainsAnyPair(title, "marketing", "campaign");
      r
    else r
  }

  /** The alert types the CMO escalates. */
  const MarketingAlerts := ["marketing_crisis", "brand_sentiment_negative", "campaign_underperformance"]

  /** `_handle_alert`: three marketing alert types become a high-severity marketing incident for operations. */
  function HandleAlert(alert: Entries, now: nat, id: string): (r: Option<Message>)
    ensures var t := GetS(alert, "alert_type", PNone);
      (r.Some? <==> exists i :: 0 <= i < |MarketingAlerts| && t == PStr(MarketingAlerts[i]))
    ensures r.Some? ==> (r.value.messageType == Alert && r.value.sender == CMO && r.value.recipient == Operations
      && r.value.priority == High
      && Lookup(r.value.content, PStr("alert_type")) == Some(PStr("marketing_incident"))
      && Lookup(r.value.content, PStr("message")) == Some(PStr("CMO处理：" + Show(GetS(alert, "message", PStr("检测到营销警报"))))))
  {
    var t := GetS(alert, "alert_type", PNone);
    if t in StrList(MarketingAlerts) then
      Some(CreateAlert(CMO, "marketing_incident", "CMO处理：" + Show(GetS(alert, "message", PStr("检测到营销警报"))),
                       High, Some(Operations), now, id))
    else None
  }

  /** The acknowledgement of a data response. */
  function DataReceived(sender: Role, now: nat, id: string): (m: Message)
    ensures m.messageType == Collaboration && m.sender == CMO && m.recipient == sender
    ensures Lookup(m.content, PStr("type")) == Some(PStr("marketing_data_received"))
  {
    CreateMessage(CMO, sender, Collaboration,
      [(PStr("type"), PStr("marketing_data_received")), (PStr("status"), PStr("已纳入")),
       (PStr("next_action"), PStr("更新营销策略"))], Medium, now, id)
  }

  // ---------------------------------------------------------------------------
  // The agent's campaign state
  // ---------------------------------------------------------------------------

  /**
   * The CMO's `campaign_metrics` entries that data responses change, and its
   * `market_trends` list. Leads and revenue keep numeric values, since they
   * start at 0 and only ever have numbers added.
   */
  class CmoAgent {
    var conversionRate: Obj
    var totalLeads: Obj
    var totalRevenue: Obj
    var successRate: Obj
    var marketTrends: seq<Obj>

    ghost predicate Valid()
      reads this
    {
      NumberOf(totalLeads).Some? && NumberOf(totalRevenue).Some?
    }

    constructor ()
      ensures Valid() && marketTrends == []
      ensures conversionRate == PFloat(0.0) && totalLeads == PInt(0) && totalRevenue == PFloat(0.0) && successRate == PFloat(0.0)
    {
      conversionRate := PFloat(0.0);
      totalLeads := PInt(0);
      totalRevenue := PFloat(0.0);
      successRate := PFloat(0.0);
      marketTrends := [];
    }

    /** The `campaign_metrics` dict. */
    function CampaignMetrics(): Entries
      reads this
    {
      [(PStr("total_campaigns"), PInt(0)), (PStr("average_conversion_rate"), conversionRate),
       (PStr("total_leads"), totalLeads), (PStr("total_revenue"), totalRevenue),
       (PStr("campaign_success_rate"), successRate)]
    }

    /**
     * What `_update_campaign_metrics(perf)` does to the metrics. For a dict:
     * the conversion rate is replaced when given; leads, then revenue, have
     * the given numbers added (`AddEntry`), and a value that is not a number
     * stops the update there with TypeError, keeping what was already
     * written; the success rate is replaced last. Any other value changes nothing, and
     * fails when one of the keys is found in it (or it is no container).
     */
    twostate predicate CampaignUpdate(perf: Obj, ok: bool)
      reads this`conversionRate, this`totalLeads, this`totalRevenue, this`successRate
    {
      NumberOf(old(totalLeads)).Some? && NumberOf(old(totalRevenue)).Some?
      && if perf.PDict? then
        var d := perf.entries;
        var leads := AddEntry(old(totalLeads), d, "total_leads");
        var revenue := AddEntry(old(totalRevenue), d, "revenue_generated");
        conversionRate == Get(d, PStr("conversion_rate"), old(conversionRate))
        && (ok <==> leads.Ok? && revenue.Ok?)
        && totalLeads == (if leads.Ok? then leads.value else old(totalLeads))
        && totalRevenue == (if ok then revenue.value else old(totalRevenue))
        && successRate == (if ok then Get(d, PStr("campaign_success"), old(successRate)) else old(successRate))
      else
        conversionRate == old(conversionRate) && totalLeads == old(totalLeads)
        && totalRevenue == old(totalRevenue) && successRate == old(successRate)
        && (ok <==> NoneFound(perf))
    }

    /** `self.campaign_metrics[key] += d[key]` when `d` has the key. */
    static function AddEntry(current: Obj, d: Entries, k: string): (r: Result<Obj, PyError>)
      requires NumberOf(current).Some?
      ensures r.Ok? <==> Summable(d, k)
      ensures r.Err? ==> r.error == TypeError
      ensures r.Ok? ==> NumberOf(r.value) == Some(NumberOf(current).value + Increment(d, k))
      ensures r.Ok? && !HasKey(d, PStr(k)) ==> r.value == current
    {
      if HasKey(d, PStr(k)) then Add(current, Lookup(d, PStr(k)).value) else Ok(current)
    }

    /** `_update_campaign_metrics`. */
    method UpdateCampaignMetrics(perf: Obj) returns (err: Option<PyError>)
      requires Valid()
      modifies this
      ensures Valid() && CampaignUpdate(perf, err.None?) && marketTrends == old(marketTrends)
      ensures err.Some? ==> err.value == TypeError
    {
      if !perf.PDict? {
        // a key found in a non-dict is then read by subscript, which it refuses
        return if NoneFound(perf) then None else Some(TypeError);
      }
      var d := perf.entries;
      conversionRate := Get(d, PStr("conversion_rate"), conversionRate);
      var leads := AddEntry(totalLeads, d, "total_leads");
      if leads.Err? {
        return Some(leads.error);
      }
      totalLeads := leads.value;
      var revenue := AddEntry(totalRevenue, d, "revenue_generated");
      if revenue.Err? {
        return Some(revenue.error);
      }
      totalRevenue := revenue.value;
      successRate := Get(d, PStr("campaign_success"), successRate);
      err := None;
    }

    /**
     * `_handle_data_response`: campaign performance updates the metrics
     * (an exception there propagates, before the trends are touched), market
     * research is appended to the trends exactly once, and the sender gets
     * an acknowledgement.
     */
    method HandleDataResponse(content: Entries, sender: Role, now: nat, id: string) returns (r: Result<Message, PyError>)
      requires Valid()
      modifies this
      ensures Valid()
      ensures HasKey(content, PStr("campaign_performance")) ==>
        CampaignUpdate(Lookup(content, PStr("campaign_performance")).value, r.Ok?)
      ensures !HasKey(content, PStr("campaign_performance")) ==>
        r.Ok? && conversionRate == old(conversionRate) && totalLeads == old(totalLeads)
        && totalRevenue == old(totalRevenue) && successRate == old(successRate)
      ensures r.Err? ==> r.error == TypeError && marketTrends == old(marketTrends)
      ensures r.Ok? ==> (r.value == DataReceived(sender, now, id)
        && marketTrends == old(marketTrends) + (if HasKey(content, PStr("market_research")) then [Lookup(content, PStr("market_research")).value] else []))
    {
      if HasKey(content, PStr("campaign_performance")) {
        var err := UpdateCampaignMetrics(Lookup(content, PStr("campaign_performance")).value);
        if err.Some? {
          return Err(err.value);
        }
      }
      if HasKey(content, PStr("market_research")) {
        marketTrends := marketTrends + [Lookup(content, PStr("market_research")).value];
      }
      r := Ok(DataReceived(sender, now, id));
    }
  }
}
