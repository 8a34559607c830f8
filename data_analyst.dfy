// src/agents/data_analyst.py: the metric trend, the warehouse tables built
// from the company state, the threshold anomaly detector and the alert and
// approval routing. Its reasoning calls are oracles.
module DataAnalyst {
  import opened Wrappers
  import opened Py
  import opened Base
  import opened Strings
  import Utils

  // ---------------------------------------------------------------------------
  // Trend of one metric
  // ---------------------------------------------------------------------------

  datatype Trend =
    | InsufficientData
    | Moving(direction: string, changePercentage: real, previous: real, current: real)

  /** The change from `previous` to `current` in percent; 0 from a zero base. */
  function ChangePercent(previous: real, current: real): (r: real)
    ensures previous == 0.0 ==> r == 0.0
    ensures previous != 0.0 ==> r * previous == (current - previous) * 100.0
  {
    if previous == 0.0 then 0.0 else (current - previous) / previous * 100.0
  }

  /** More than five percent either way is a move; anything in between is stable. */
  function Direction(pct: real): (r: string)
    ensures r == "up" <==> pct > 5.0
    ensures r == "down" <==> pct < -5.0
    ensures r == "stable" <==> -5.0 <= pct <= 5.0
  {
    if pct > 5.0 then "up" else if pct < -5.0 then "down" else "stable"
  }

  /** From a positive base, "up" means more than 5% above it and "down" more than 5% below it. */
  lemma DirectionFromPositiveBase(previous: real, current: real)
    requires previous > 0.0
    ensures Direction(ChangePercent(previous, current)) == "up" <==> current > previous * 1.05
    ensures Direction(ChangePercent(previous, current)) == "down" <==> current < previous * 0.95
  {
    var pct := ChangePercent(previous, current);
    assert pct * previous == (current - previous) * 100.0;
    assert pct > 5.0 <==> pct * previous > 5.0 * previous;
    assert pct < -5.0 <==> pct * previous < -5.0 * previous;
  }

  /** The last two entries of the history, as `h[-1]` and `h[-2]` give them. */
  function LastTwo(h: Obj): (r: Result<(Obj, Obj), PyError>)
    requires LenOf(h).Ok? && LenOf(h).value >= 2
    ensures h.PList? || h.PTuple? ==> r == Ok((h.items[|h.items| - 1], h.items[|h.items| - 2]))
  {
    match h
    case PList(items) => Ok((items[|items| - 1], items[|items| - 2]))
    case PTuple(items) => Ok((items[|items| - 1], items[|items| - 2]))
    case PStr(s) => Ok((PStr([s[|s| - 1]]), PStr([s[|s| - 2]])))
    case PDict(entries) =>
      (match (Lookup(entries, PInt(-1)), Lookup(entries, PInt(-2)))
       case (Some(a), Some(b)) => Ok((a, b))
       case _ => Err(KeyError))
  }

  /**
   * `_calculate_trend`: the `<metric>_history` list of the KPIs needs two
   * entries; the last two give the change in percent, its direction and the
   * change rounded to two places.
   */
  function CalculateTrend(kpis: Entries, metric: string): (r: Result<Trend, PyError>)
    ensures var h := GetS(kpis, metric + "_history", PList([]));
      LenOf(h).Err? ==> r == Err(TypeError)
    ensures var h := GetS(kpis, metric + "_history", PList([]));
      LenOf(h).Ok? && LenOf(h).value < 2 ==> r == Ok(InsufficientData)
    ensures var h := GetS(kpis, metric + "_history", PList([]));
      (h.PList? || h.PTuple?) && |h.items| >= 2 ==>
        var n := |h.items|;
        (r.Ok? <==> NumberOf(h.items[n - 1]).Some? && NumberOf(h.items[n - 2]).Some?)
        && (r.Ok? ==>
              (r.value.Moving?
               && Some(r.value.current) == NumberOf(h.items[n - 1])
               && Some(r.value.previous) == NumberOf(h.items[n - 2])))
    ensures r.Ok? && r.value.Moving? ==>
      var pct := ChangePercent(r.value.previous, r.value.current);
      r.value.direction == Direction(pct) && r.value.changePercentage == Round2(pct)
  {
    var h := GetS(kpis, metric + "_history", PList([]));
    match LenOf(h)
    case Err(e) => Err(e)
    case Ok(n) =>
      if n < 2 then Ok(InsufficientData)
      else match LastTwo(h)
        case Err(e) => Err(e)
        case Ok((last, before)) =>
          match (NumberOf(last), NumberOf(before))
          case (Some(current), Some(previous)) =>
            var pct := ChangePercent(previous, current);
            Ok(Moving(Direction(pct), Round2(pct), previous, current))
          case _ => Err(TypeError)
  }

  // ---------------------------------------------------------------------------
  // Warehouse tables
  // ---------------------------------------------------------------------------

  const FeedbackRows := 50
  const MessageCap := 100

  datatype FeedbackRow = FeedbackRow(id: nat, sentiment: Obj, category: Obj, message: Obj)

  /**
   * A feedback message longer than a hundred characters becomes its first
   * hundred plus "..."; a shorter one is kept. A long list, tuple or dict
   * cannot be sliced and joined to text; an unsized value has no length.
   */
  function Shorten(m: Obj): (r: Result<Obj, PyError>)
    ensures m.PStr? ==> r.Ok? && r.value.PStr?
    ensures m.PStr? && |m.s| <= MessageCap ==> r == Ok(m)
    ensures m.PStr? && |m.s| > MessageCap ==>
      (r.Ok? && |r.value.s| == MessageCap + 3
       && r.value.s[..MessageCap] == m.s[..MessageCap] && r.value.s[MessageCap..] == "...")
    ensures !m.PStr? ==> (r.Ok? <==> LenOf(m).Ok? && LenOf(m).value <= MessageCap)
    ensures !m.PStr? && r.Ok? ==> r.value == m
    ensures r.Err? ==> r.error == TypeError
  {
    match LenOf(m)
    case Err(e) => Err(e)
    case Ok(n) =>
      if n <= MessageCap then Ok(m)
      else if m.PStr? then
        var t := m.s[..MessageCap] + "...";
        assert t[..MessageCap] == m.s[..MessageCap] && t[MessageCap..] == "...";
        Ok(PStr(t))
      else Err(TypeError)
  }

  /** One row of the feedback table: a feedback item must be a dict. */
  function FeedbackRowOf(item: Obj, idx: nat): (r: Result<FeedbackRow, PyError>)
    ensures !item.PDict? ==> r == Err(AttributeError)
    ensures item.PDict? ==> (r.Ok? <==> Shorten(GetS(item.entries, "message", PStr(""))).Ok?)
    ensures r.Ok? ==>
      (r.value.id == idx
       && r.value.sentiment == GetS(item.entries, "sentiment", PStr("unknown"))
       && r.value.category == GetS(item.entries, "category", PStr("general"))
       && Ok(r.value.message) == Shorten(GetS(item.entries, "message", PStr(""))))
  {
    if !item.PDict? then Err(AttributeError)
    else
      var d := item.entries;
      match Shorten(GetS(d, "message", PStr("")))
      case Err(e) => Err(e)
      case Ok(m) => Ok(FeedbackRow(idx, GetS(d, "sentiment", PStr("unknown")), GetS(d, "category", PStr("general")), m))
  }

  /**
   * `_build_user_feedback_table`: the first fifty feedback items, each row
   * numbered by its position, with the message shortened.
   */
  function FeedbackTable(feedback: seq<Obj>): (r: Result<seq<FeedbackRow>, PyError>)
    ensures r.Ok? ==> |r.value| == (if |feedback| < FeedbackRows then |feedback| else FeedbackRows)
    ensures r.Ok? ==> forall i :: 0 <= i < |r.value| ==>
      (r.value[i].id == i && feedback[i].PDict?
       && Ok(r.value[i].message) == Shorten(GetS(feedback[i].entries, "message", PStr(""))))
    ensures r.Ok? <==> forall i :: 0 <= i < |feedback| && i < FeedbackRows ==> FeedbackRowOf(feedback[i], i).Ok?
  {
    var n := if |feedback| < FeedbackRows then |feedback| else FeedbackRows;
    var rows := seq(n, i requires 0 <= i < n => FeedbackRowOf(feedback[i], i));
    CollectSpec(rows);
    Collect(rows)
  }

  datatype KpiRow = KpiRow(metric: string, current: Obj, target: Obj, progress: real)

  /** The progress towards a positive target in percent, capped at 100; 0 without a target. */
  function Progress(value: real, target: real): (r: real)
    ensures target <= 0.0 ==> r == 0.0
    ensures r <= 100.0
    ensures target > 0.0 ==> (r == 100.0 <==> value >= target)
    ensures target > 0.0 && value >= 0.0 ==> r >= 0.0
  {
    if target > 0.0 then
      var q := value / target;
      assert q * target == value;
      assert (q - 1.0) * target == value - target;
      assert q < 1.0 <==> value < target;
      if q * 100.0 < 100.0 then q * 100.0 else 100.0
    else 0.0
  }

  /**
   * The row of one metric: its `<metric>_target` entry (compared with 0, so
   * it must be a number when present) and, towards a positive target, the
   * progress of its value (which must then be a number).
   */
  function KpiRowOf(kpis: Entries, metric: string, value: Obj): (r: Result<KpiRow, PyError>)
    ensures var t := GetS(kpis, metric + "_target", PInt(0));
      (r.Ok? <==> NumberOf(t).Some? && (NumberOf(t).value > 0.0 ==> NumberOf(value).Some?))
      && (r.Ok? ==> (r.value.metric == metric && r.value.current == value
                     && r.value.target == GetS(kpis, metric + "_target", PStr("N/A"))
                     && r.value.progress == (if NumberOf(t).value > 0.0 then Progress(NumberOf(value).value, NumberOf(t).value) else 0.0)))
  {
    var key := metric + "_target";
    match NumberOf(GetS(kpis, key, PInt(0)))
    case None => Err(TypeError)
    case Some(target) =>
      if target > 0.0 then
        match NumberOf(value)
        case None => Err(TypeError)
        case Some(v) => Ok(KpiRow(metric, value, GetS(kpis, key, PStr("N/A")), Progress(v, target)))
      else Ok(KpiRow(metric, value, GetS(kpis, key, PStr("N/A")), 0.0))
  }

  /** The rows of the entries `es` of `kpis`, skipping the `_target` entries; a key that is not text has no `endswith`. */
  function KpiRows(es: Entries, kpis: Entries): Result<seq<KpiRow>, PyError>
    decreases |es|
  {
    if es == [] then Ok([])
    else
      var (k, v) := es[0];
      if !k.PStr? then Err(AttributeError)
      else if EndsWith(k.s, "_target") then KpiRows(es[1..], kpis)
      else match KpiRowOf(kpis, k.s, v)
        case Err(e) => Err(e)
        case Ok(row) =>
          match KpiRows(es[1..], kpis)
          case Err(e) => Err(e)
          case Ok(rest) => Ok([row] + rest)
  }

  /** `row` is the row of the entry `e`, a text key that is not a target. */
  predicate RowOfEntry(kpis: Entries, e: (Obj, Obj), row: KpiRow)
  {
    e.0.PStr? && !EndsWith(e.0.s, "_target") && Ok(row) == KpiRowOf(kpis, e.0.s, e.1)
  }

  /** One step of `KpiRows` on a successful run, without the matches. */
  lemma KpiRowsCons(es: Entries, kpis: Entries)
    requires es != [] && KpiRows(es, kpis).Ok?
    ensures es[0].0.PStr? && KpiRows(es[1..], kpis).Ok?
    ensures EndsWith(es[0].0.s, "_target") ==> KpiRows(es, kpis).value == KpiRows(es[1..], kpis).value
    ensures !EndsWith(es[0].0.s, "_target") ==>
      KpiRowOf(kpis, es[0].0.s, es[0].1).Ok?
      && KpiRows(es, kpis).value == [KpiRowOf(kpis, es[0].0.s, es[0].1).value] + KpiRows(es[1..], kpis).value
  {
  }

  lemma {:induction false} KpiRowsFrom(es: Entries, kpis: Entries)
    requires KpiRows(es, kpis).Ok?
    ensures forall i :: 0 <= i < |es| ==> es[i].0.PStr?
    ensures forall j :: 0 <= j < |KpiRows(es, kpis).value| ==>
      exists i :: 0 <= i < |es| && RowOfEntry(kpis, es[i], KpiRows(es, kpis).value[j])
    decreases |es|
  {
    if es != [] {
      KpiRowsCons(es, kpis);
      KpiRowsFrom(es[1..], kpis);
      if !EndsWith(es[0].0.s, "_target") {
        HeadRow(kpis, es[0]);
      }
      RowsFromStep(es, kpis, KpiRows(es[1..], kpis).value, KpiRows(es, kpis).value);
    }
  }

  /** The step of `KpiRowsFrom`: rows of the tail, plus possibly the row of the head. */
  lemma RowsFromStep(es: Entries, kpis: Entries, rest: seq<KpiRow>, r: seq<KpiRow>)
    requires es != [] && es[0].0.PStr?
    requires forall i :: 0 <= i < |es[1..]| ==> es[1..][i].0.PStr?
    requires forall j :: 0 <= j < |rest| ==> exists i :: 0 <= i < |es[1..]| && RowOfEntry(kpis, es[1..][i], rest[j])
    requires EndsWith(es[0].0.s, "_target") ==> r == rest
    requires !EndsWith(es[0].0.s, "_target") ==> r != [] && RowOfEntry(kpis, es[0], r[0]) && r[1..] == rest
    ensures forall i :: 0 <= i < |es| ==> es[i].0.PStr?
    ensures forall j :: 0 <= j < |r| ==> exists i :: 0 <= i < |es| && RowOfEntry(kpis, es[i], r[j])
  {
    forall i | 1 <= i < |es|
      ensures es[i].0.PStr?
    {
      assert es[i] == es[1..][i - 1];
    }
    forall j | 0 <= j < |r|
      ensures exists i :: 0 <= i < |es| && RowOfEntry(kpis, es[i], r[j])
    {
      var k := if EndsWith(es[0].0.s, "_target") then j else j - 1;
      if k >= 0 {
        assert r[j] == rest[k];
        ShiftWitness(es, kpis, rest[k]);
      }
    }
  }

  lemma HeadRow(kpis: Entries, e: (Obj, Obj))
    requires e.0.PStr? && !EndsWith(e.0.s, "_target") && KpiRowOf(kpis, e.0.s, e.1).Ok?
    ensures RowOfEntry(kpis, e, KpiRowOf(kpis, e.0.s, e.1).value)
  {
  }

  /** A row of an entry of the tail is a row of an entry of the whole. */
  lemma ShiftWitness(es: Entries, kpis: Entries, row: KpiRow)
    requires es != [] && exists i :: 0 <= i < |es[1..]| && RowOfEntry(kpis, es[1..][i], row)
    ensures exists i :: 0 <= i < |es| && RowOfEntry(kpis, es[i], row)
  {
    var i :| 0 <= i < |es[1..]| && RowOfEntry(kpis, es[1..][i], row);
    assert es[i + 1] == es[1..][i];
  }

  /** Every key is text, and each row is the row of one entry that is not a target. */
  lemma KpiRowsSound(es: Entries, kpis: Entries)
    ensures var r := KpiRows(es, kpis);
      r.Ok? ==> ((forall i :: 0 <= i < |es| ==> es[i].0.PStr?)
                 && forall j :: 0 <= j < |r.value| ==>
                      !EndsWith(r.value[j].metric, "_target") && r.value[j].progress <= 100.0 &&
                      exists i :: 0 <= i < |es| && es[i].0.PStr? && !EndsWith(es[i].0.s, "_target")
                                  && Ok(r.value[j]) == KpiRowOf(kpis, es[i].0.s, es[i].1))
  {
    var r := KpiRows(es, kpis);
    if r.Ok? {
      KpiRowsFrom(es, kpis);
      forall j | 0 <= j < |r.value|
        ensures !EndsWith(r.value[j].metric, "_target") && r.value[j].progress <= 100.0
        ensures exists i :: 0 <= i < |es| && es[i].0.PStr? && !EndsWith(es[i].0.s, "_target")
                            && Ok(r.value[j]) == KpiRowOf(kpis, es[i].0.s, es[i].1)
      {
        var i :| 0 <= i < |es| && RowOfEntry(kpis, es[i], r.value[j]);
        assert r.value[j].metric == es[i].0.s;
      }
    }
  }

  /** Every entry that is not a target has a row, with its value. */
  lemma {:induction false} KpiRowsComplete(es: Entries, kpis: Entries)
    ensures var r := KpiRows(es, kpis);
      r.Ok? ==> forall i :: 0 <= i < |es| && es[i].0.PStr? && !EndsWith(es[i].0.s, "_target") ==>
        exists j :: 0 <= j < |r.value| && r.value[j].metric == es[i].0.s && r.value[j].current == es[i].1
    decreases |es|
  {
    if es != [] && es[0].0.PStr? {
      KpiRowsComplete(es[1..], kpis);
      var r := KpiRows(es, kpis);
      if r.Ok? {
        var rest := KpiRows(es[1..], kpis).value;
        var skip := EndsWith(es[0].0.s, "_target");
        assert r.value == (if skip then [] else [r.value[0]]) + rest;
        forall i | 0 <= i < |es| && es[i].0.PStr? && !EndsWith(es[i].0.s, "_target")
          ensures exists j :: 0 <= j < |r.value| && r.value[j].metric == es[i].0.s && r.value[j].current == es[i].1
        {
          if i == 0 {
            assert r.value[0].metric == es[0].0.s && r.value[0].current == es[0].1;
          } else {
            assert es[i] == es[1..][i - 1];
            var j :| 0 <= j < |rest| && rest[j].metric == es[i].0.s && rest[j].current == es[i].1;
            var off := if skip then 0 else 1;
            assert r.value[j + off] == rest[j];
          }
        }
      }
    }
  }

  /**
   * `_build_kpi_trends_table`: a row per metric that is not a target, with
   * its target (or "N/A") and its progress towards it.
   */
  function KpiTable(kpis: Entries): (r: Result<seq<KpiRow>, PyError>)
    ensures r.Ok? ==> forall i :: 0 <= i < |kpis| ==> kpis[i].0.PStr?
    ensures r.Ok? ==> forall j :: 0 <= j < |r.value| ==>
      !EndsWith(r.value[j].metric, "_target") && r.value[j].progress <= 100.0
    ensures r.Ok? ==> forall i :: 0 <= i < |kpis| && kpis[i].0.PStr? && !EndsWith(kpis[i].0.s, "_target") ==>
      exists j :: 0 <= j < |r.value| && r.value[j].metric == kpis[i].0.s && r.value[j].current == kpis[i].1
  {
    KpiRowsSound(kpis, kpis);
    KpiRowsComplete(kpis, kpis);
    var r := KpiRows(kpis, kpis);
    assert r.Ok? ==> forall j :: 0 <= j < |r.value| ==> !EndsWith(r.value[j].metric, "_target");
    assert r.Ok? ==> forall j :: 0 <= j < |r.value| ==> r.value[j].progress <= 100.0;
    r
  }

  datatype AgentRow = AgentRow(agent: string, tasksCompleted: nat, percentage: real)

  /** What `_collect_data` counts per agent: its completed and its current tasks. */
  function Load(st: AgentState): nat
  {
    |st.completedTasks| + |st.currentTasks|
  }

  function TotalLoad(agents: AgentsView): nat
  {
    if agents == [] then 0 else Load(agents[0].1) + TotalLoad(agents[1..])
  }

  /** The share of `count` in `total`, in percent; 0 when there is nothing to share. */
  function Share(count: nat, total: nat): real
  {
    if total > 0 then count as real / total as real * 100.0 else 0.0
  }

  function AgentRows(agents: AgentsView, total: nat): (r: seq<AgentRow>)
    ensures |r| == |agents|
    ensures forall i :: 0 <= i < |agents| ==>
      r[i] == AgentRow(RoleValue(agents[i].0), Load(agents[i].1), Share(Load(agents[i].1), total))
    decreases |agents|
  {
    if agents == [] then []
    else [AgentRow(RoleValue(agents[0].0), Load(agents[0].1), Share(Load(agents[0].1), total))] + AgentRows(agents[1..], total)
  }

  /**
   * `_build_agent_performance_table`: one row per agent with its task count
   * and its share of all counted tasks (0 when there are none). The agents
   * dict has one entry per role.
   */
  function AgentTable(agents: AgentsView): (r: seq<AgentRow>)
    ensures |r| == |agents|
    ensures forall i :: 0 <= i < |agents| ==>
      r[i].agent == RoleValue(agents[i].0) && r[i].tasksCompleted == Load(agents[i].1)
    ensures TotalLoad(agents) == 0 ==> forall i :: 0 <= i < |r| ==> r[i].percentage == 0.0
  {
    AgentRows(agents, TotalLoad(agents))
  }

  function PercentTotal(rows: seq<AgentRow>): real
  {
    if rows == [] then 0.0 else rows[0].percentage + PercentTotal(rows[1..])
  }

  lemma ShareAdd(a: nat, b: nat, t: nat)
    requires t > 0
    ensures Share(a, t) + b as real / t as real * 100.0 == (a + b) as real / t as real * 100.0
  {
    var qa, qb, q := a as real / t as real, b as real / t as real, (a + b) as real / t as real;
    assert qa * t as real == a as real;
    assert qb * t as real == b as real;
    assert q * t as real == (a + b) as real;
    assert (qa + qb) * t as real == q * t as real;
  }

  lemma {:induction false} AgentRowsPercent(agents: AgentsView, t: nat)
    requires t > 0
    ensures PercentTotal(AgentRows(agents, t)) == TotalLoad(agents) as real / t as real * 100.0
    decreases |agents|
  {
    if agents == [] {
      assert 0.0 / t as real == 0.0;
    } else {
      AgentRowsPercent(agents[1..], t);
      assert AgentRows(agents, t)[1..] == AgentRows(agents[1..], t);
      ShareAdd(Load(agents[0].1), TotalLoad(agents[1..]), t);
    }
  }

  /** Once any task is counted, the shares of the agent table add up to 100%. */
  lemma AgentSharesTotal(agents: AgentsView)
    requires TotalLoad(agents) > 0
    ensures PercentTotal(AgentTable(agents)) == 100.0
  {
    var t := TotalLoad(agents);
    AgentRowsPercent(agents, t);
    assert AgentTable(agents) == AgentRows(agents, t);
    WholeShare(t as real);
  }

  lemma WholeShare(t: real)
    requires t > 0.0
    ensures t / t * 100.0 == 100.0
  {
    var q := t / t;
    assert q * t == t;
    assert q == 1.0;
  }

  // ---------------------------------------------------------------------------
  // Anomaly detection
  // ---------------------------------------------------------------------------

  datatype Anomaly = Anomaly(kind: string, severity: string, message: string, current: Obj, threshold: nat)

  const ResponseTimeLimit := 500
  const ErrorRateLimit := 5
  const FailedTaskLimit := 10

  /** The response-time check: one slow_response anomaly above 500 ms. */
  function SlowCheck(kpis: Entries, rt: real): (r: seq<Anomaly>)
    ensures |r| <= 1 && (r != [] <==> rt > ResponseTimeLimit as real)
    ensures forall j :: 0 <= j < |r| ==> r[j].kind == "slow_response"
  {
    if rt > ResponseTimeLimit as real
    then [Anomaly("slow_response", "warning", "Response time exceeds threshold", GetS(kpis, "response_time", PNone), ResponseTimeLimit)]
    else []
  }

  /** The error-rate check: one high_error_rate anomaly above 5%. */
  function ErrorCheck(kpis: Entries, er: real): (r: seq<Anomaly>)
    ensures |r| <= 1 && (r != [] <==> er > ErrorRateLimit as real)
    ensures forall j :: 0 <= j < |r| ==> r[j].kind == "high_error_rate"
  {
    if er > ErrorRateLimit as real
    then [Anomaly("high_error_rate", "critical", "Error rate exceeds threshold", GetS(kpis, "error_rate", PNone), ErrorRateLimit)]
    else []
  }

  /** The two KPI checks; a KPI that is not a number cannot be compared. */
  function KpiAnomalies(kpis: Entries): (r: Result<seq<Anomaly>, PyError>)
    ensures r.Ok? <==> NumberOf(GetS(kpis, "response_time", PInt(0))).Some? && NumberOf(GetS(kpis, "error_rate", PInt(0))).Some?
    ensures r.Err? ==> r.error == TypeError
  {
    match (NumberOf(GetS(kpis, "response_time", PInt(0))), NumberOf(GetS(kpis, "error_rate", PInt(0))))
    case (Some(rt), Some(er)) => Ok(SlowCheck(kpis, rt) + ErrorCheck(kpis, er))
    case _ => Err(TypeError)
  }

  /** Each kind is reported exactly when its threshold is exceeded, and at most two anomalies come out. */
  lemma KpiAnomalyKinds(kpis: Entries)
    requires KpiAnomalies(kpis).Ok?
    ensures var r := KpiAnomalies(kpis).value;
      var rt, er := NumberOf(GetS(kpis, "response_time", PInt(0))).value, NumberOf(GetS(kpis, "error_rate", PInt(0))).value;
      (exists j :: 0 <= j < |r| && r[j].kind == "slow_response") == (rt > ResponseTimeLimit as real)
      && (exists j :: 0 <= j < |r| && r[j].kind == "high_error_rate") == (er > ErrorRateLimit as real)
      && |r| <= 2
  {
    var rt, er := NumberOf(GetS(kpis, "response_time", PInt(0))).value, NumberOf(GetS(kpis, "error_rate", PInt(0))).value;
    assert "slow_response" != "high_error_rate" by { assert "slow_response"[0] != "high_error_rate"[0]; }
    KindsOfPair(SlowCheck(kpis, rt), ErrorCheck(kpis, er), "slow_response", "high_error_rate");
  }

  /** Two runs of single kinds, concatenated: each kind occurs exactly when its run is non-empty. */
  lemma KindsOfPair(xs: seq<Anomaly>, ys: seq<Anomaly>, k1: string, k2: string)
    requires forall j :: 0 <= j < |xs| ==> xs[j].kind == k1
    requires forall j :: 0 <= j < |ys| ==> ys[j].kind == k2
    requires k1 != k2
    ensures (exists j :: 0 <= j < |xs + ys| && (xs + ys)[j].kind == k1) == (xs != [])
    ensures (exists j :: 0 <= j < |xs + ys| && (xs + ys)[j].kind == k2) == (ys != [])
  {
    var r := xs + ys;
    assert forall j :: 0 <= j < |r| ==> (r[j].kind == k1 <==> j < |xs|);
    assert forall j :: 0 <= j < |r| ==> (r[j].kind == k2 <==> j >= |xs|);
    if xs != [] { assert r[0].kind == k1; }
    if ys != [] { assert r[|xs|].kind == k2; }
  }

  /** The anomaly reported for one agent with too many failed tasks. */
  function FailureOf(role: Role, st: AgentState): Anomaly
  {
    Anomaly("agent_failure_rate", "high", RoleValue(role) + " has high failure rate", PInt(FailedCount(st.completedTasks)), FailedTaskLimit)
  }

  predicate Failing(st: AgentState)
  {
    FailedCount(st.completedTasks) > FailedTaskLimit
  }

  /** The per-agent scan, in the order of the agents. */
  function FailureScan(agents: AgentsView): seq<Anomaly>
    decreases |agents|
  {
    if agents == [] then []
    else
      var last := agents[|agents| - 1];
      FailureScan(agents[..|agents| - 1]) + (if Failing(last.1) then [FailureOf(last.0, last.1)] else [])
  }

  /** The agent loop of `_detect_anomalies`. */
  method ScanFailures(agents: AgentsView) returns (r: seq<Anomaly>)
    ensures r == FailureScan(agents)
  {
    r := [];
    var i := 0;
    while i < |agents|
      invariant 0 <= i <= |agents|
      invariant r == FailureScan(agents[..i])
    {
      assert agents[..i + 1][..i] == agents[..i];
      var (role, st) := agents[i];
      if FailedCount(st.completedTasks) > FailedTaskLimit {
        r := r + [FailureOf(role, st)];
      }
      i := i + 1;
    }
    assert agents[..i] == agents;
  }

  /** An agent is reported exactly when more than ten of its completed tasks failed. */
  lemma {:induction false} FailureScanIff(agents: AgentsView, a: Anomaly)
    ensures a in FailureScan(agents) <==>
      exists i :: 0 <= i < |agents| && Failing(agents[i].1) && a == FailureOf(agents[i].0, agents[i].1)
    decreases |agents|
  {
    if agents != [] {
      var n := |agents| - 1;
      var prefix := agents[..n];
      FailureScanIff(prefix, a);
      assert forall i :: 0 <= i < n ==> prefix[i] == agents[i];
      if a in FailureScan(agents) && a !in FailureScan(prefix) {
        assert Failing(agents[n].1) && a == FailureOf(agents[n].0, agents[n].1);
      }
    }
  }

  /** The alert `_alert_operations` queues for the operations agent. */
  function OperationsAlert(count: nat, now: nat, id: string): (m: Message)
    ensures m.messageType == Alert && m.sender == DataAnalyst && m.recipient == Operations && m.priority == High
  {
    CreateAlert(DataAnalyst, "data_anomaly_detected", "Data Analyst detected " + Show(PInt(count)) + " anomalies",
                High, Some(Operations), now, id)
  }

  /** The anomalies `_detect_anomalies` collects: the KPI checks, then the agent scan. */
  method Detect(kpis: Entries, agents: AgentsView) returns (r: Result<seq<Anomaly>, PyError>)
    ensures KpiAnomalies(kpis).Err? ==> r == Err(KpiAnomalies(kpis).error)
    ensures KpiAnomalies(kpis).Ok? ==> r == Ok(KpiAnomalies(kpis).value + FailureScan(agents))
  {
    var found := KpiAnomalies(kpis);
    if found.Err? {
      return Err(found.error);
    }
    var failing := ScanFailures(agents);
    r := Ok(found.value + failing);
  }

  /** One operations alert when anything was found and an operations agent is registered, otherwise none. */
  function AnomalyAlerts(anomalies: seq<Anomaly>, agents: AgentsView, now: nat, id: string): (ms: seq<Message>)
    ensures |ms| <= 1
    ensures ms != [] <==> anomalies != [] && AgentOf(agents, Operations).Some?
    ensures ms != [] ==> ms[0].recipient == Operations && ms[0].messageType == Alert
  {
    if anomalies != [] && AgentOf(agents, Operations).Some? then [OperationsAlert(|anomalies|, now, id)] else []
  }

  // ---------------------------------------------------------------------------
  // Alert and approval routing
  // ---------------------------------------------------------------------------

  /** What `_analyze_anomaly` returns once awaited. */
  function AnomalyAnalysis(alert: Entries): (r: Entries)
    ensures Lookup(r, PStr("detected_by")) == Some(PStr("data_analyst"))
    ensures Lookup(r, PStr("severity")) == Some(GetS(alert, "severity", PStr("unknown")))
  {
    var r := StrDict([("detected_by", PStr("data_analyst")), ("severity", GetS(alert, "severity", PStr("unknown"))),
                      ("analysis", PStr("Initial anomaly detected. Detailed data analysis required.")),
                      ("recommended_actions", PList(StrList(["Investigate root cause", "Review related metrics",
                                                             "Check for data quality issues"])))]);
    assert r[1].0 == PStr("severity") && r[0].0 != r[1].0 by { assert "detected_by"[0] != "severity"[0]; }
    r
  }

  /** The value the handler stores under "analysis": the coroutine of `_analyze_anomaly`, which is never awaited. */
  const PendingAnalysis := POther("<coroutine object DataAnalystAgent._analyze_anomaly>")

  predicate Forwarded(alert: Entries)
  {
    Lookup(alert, PStr("severity")) == Some(PStr("critical")) || Lookup(alert, PStr("severity")) == Some(PStr("high"))
  }

  /** The alert forwarded to operations, carrying `analysis`; its priority is the alert's severity. */
  function ForwardedAlert(alert: Entries, analysis: Obj, now: nat, id: string): (m: Message)
    requires Forwarded(alert)
    ensures m.messageType == Alert && m.sender == DataAnalyst && m.recipient == Operations
    ensures m.priority == (if Lookup(alert, PStr("severity")) == Some(PStr("critical")) then Critical else High)
    ensures Lookup(m.content, PStr("analysis")) == Some(analysis)
    ensures Lookup(m.content, PStr("severity")) == Lookup(alert, PStr("severity"))
  {
    var severity := GetS(alert, "severity", PStr("high"));
    var text := "Data Analyst detected anomaly: " + Show(GetS(alert, "message", PStr("Anomaly detected")));
    CreateMessage(DataAnalyst, Operations, Alert, AlertContent(text, severity, analysis),
                  if severity == PStr("critical") then Critical else High, now, id)
  }

  function AlertContent(text: string, severity: Obj, analysis: Obj): (r: Entries)
    ensures Lookup(r, PStr("severity")) == Some(severity)
    ensures Lookup(r, PStr("analysis")) == Some(analysis)
  {
    var c := [(PStr("alert_type"), PStr("data_anomaly_detected")), (PStr("message"), PStr(text)),
              (PStr("severity"), severity), (PStr("analysis"), analysis)];
    assert |"alert_type"| == 10 && |"message"| == 7 && |"severity"| == 8 && |"analysis"| == 8;
    assert "severity"[0] != "analysis"[0];
    assert Lookup(c[3..], PStr("analysis")) == Some(analysis);
    assert Lookup(c[2..], PStr("analysis")) == Some(analysis);
    assert Lookup(c[1..], PStr("analysis")) == Some(analysis);
    assert Lookup(c[2..], PStr("severity")) == Some(severity);
    c
  }

  /** `_handle_alert` as written: the analysis it forwards is the unawaited coroutine. */
  function HandleAlertAsWritten(alert: Entries, now: nat, id: string): (r: Option<Message>)
    ensures r.Some? <==> Forwarded(alert)
    ensures r.Some? ==> r.value == ForwardedAlert(alert, PendingAnalysis, now, id)
  {
    if Forwarded(alert) then Some(ForwardedAlert(alert, PendingAnalysis, now, id)) else None
  }

  /** A forwarded alert never carries the analysis dict `_analyze_anomaly` builds. */
  lemma AnalysisNeverAwaited(alert: Entries, now: nat, id: string)
    requires Forwarded(alert)
    ensures var m := HandleAlertAsWritten(alert, now, id).value;
      Lookup(m.content, PStr("analysis")) != Some(PDict(AnomalyAnalysis(alert)))
  {
  }

  /**
   * `_handle_alert` with the analysis awaited: only a critical or high
   * alert is forwarded to operations, at that priority, with the analysis.
   */
  function HandleAlert(alert: Entries, now: nat, id: string): (r: Option<Message>)
    ensures r.Some? <==> Forwarded(alert)
    ensures r.Some? ==> r.value.recipient == Operations && r.value.messageType == Alert
    ensures r.Some? ==> r.value.priority == (if Lookup(alert, PStr("severity")) == Some(PStr("critical")) then Critical else High)
    ensures r.Some? ==> Lookup(r.value.content, PStr("analysis")) == Some(PDict(AnomalyAnalysis(alert)))
  {
    if Forwarded(alert) then Some(ForwardedAlert(alert, PDict(AnomalyAnalysis(alert)), now, id)) else None
  }

  /** The forwarded analysis names the severity of the alert. */
  lemma AnalysisNamesSeverity(alert: Entries, now: nat, id: string)
    requires Forwarded(alert)
    ensures var analysis := Lookup(HandleAlert(alert, now, id).value.content, PStr("analysis")).value;
      analysis.PDict? && Lookup(analysis.entries, PStr("severity")) == Lookup(alert, PStr("severity"))
  {
  }

  const DataApprovalTypes: seq<Obj> := [PStr("budget"), PStr("financial")]

  /**
   * `_handle_approval_request`: budget and financial requests are evaluated
   * (by the oracle: its decision, or the text of the exception that made the
   * evaluation fail); any other type is refused. The evaluation prompt dumps
   * the request, the company's KPIs and the agent's prediction models before
   * the `try`, so any of them that JSON cannot encode is a TypeError.
   */
  function HandleApprovalRequest(content: Entries, kpis: Obj, models: Obj, sender: Role,
                                 oracle: Result<Obj, string>, now: nat, id: string): (r: Result<Message, PyError>)
    ensures r.Err? <==> GetS(content, "request_type", PStr("")) in DataApprovalTypes
                        && !(Utils.Dumpable(PDict(content)) && Utils.Dumpable(kpis) && Utils.Dumpable(models))
    ensures r.Err? ==> r.error == TypeError
    ensures r.Ok? ==> r.value.messageType == ApprovalResponse && r.value.recipient == sender && r.value.sender == DataAnalyst
    ensures GetS(content, "request_type", PStr("")) !in DataApprovalTypes ==>
      r.Ok? && Lookup(r.value.content, PStr("approved")) == Some(PBool(false))
    ensures GetS(content, "request_type", PStr("")) in DataApprovalTypes && oracle.Ok? && r.Ok? ==>
      Lookup(r.value.content, PStr("decision")) == Some(oracle.value)
    ensures GetS(content, "request_type", PStr("")) in DataApprovalTypes && oracle.Err? && r.Ok? ==>
      exists d :: Lookup(r.value.content, PStr("decision")) == Some(PDict(d)) && Lookup(d, PStr("approved")) == Some(PBool(false))
  {
    var requestType := GetS(content, "request_type", PStr(""));
    var requestId := Get(content, PStr("request_id"), PNone);
    if requestType !in DataApprovalTypes then
      var c := StrDict([("request_id", requestId), ("approved", PBool(false)),
                        ("reasoning", PStr("Data Analyst does not typically handle this approval type"))]);
      assert c[1].0 == PStr("approved") && c[0].0 != c[1].0 by { assert "request_id"[0] != "approved"[0]; }
      Ok(CreateMessage(DataAnalyst, sender, ApprovalResponse, c, Medium, now, id))
    else if !(Utils.Dumpable(PDict(content)) && Utils.Dumpable(kpis) && Utils.Dumpable(models)) then
      Err(TypeError)
    else if oracle.Ok? then
      var c := StrDict([("request_id", requestId), ("decision", oracle.value), ("evaluated_by", PStr("DataAnalyst"))]);
      assert c[1].0 == PStr("decision") && c[0].0 != c[1].0 by { assert "request_id"[0] != "decision"[0]; }
      Ok(CreateMessage(DataAnalyst, sender, ApprovalResponse, c, Medium, now, id))
    else
      var d := StrDict([("approved", PBool(false)), ("reasoning", PStr("Evaluation failed: " + oracle.error))]);
      var c := StrDict([("request_id", requestId), ("decision", PDict(d))]);
      assert c[1].0 == PStr("decision") && c[0].0 != c[1].0 by { assert "request_id"[0] != "decision"[0]; }
      assert Lookup(c, PStr("decision")) == Some(PDict(d)) && Lookup(d, PStr("approved")) == Some(PBool(false));
      Ok(CreateMessage(DataAnalyst, sender, ApprovalResponse, c, Medium, now, id))
  }

  // ---------------------------------------------------------------------------
  // The agent
  // ---------------------------------------------------------------------------

  class DataAnalystAgent {
    var anomalyDetected: bool
    /** The agent's outgoing message log (`self.state.messages`). */
    var messages: seq<Message>

    constructor ()
      ensures !anomalyDetected && messages == []
    {
      anomalyDetected := false;
      messages := [];
    }

    /**
     * `_detect_anomalies`: the KPI checks, then one anomaly per agent with
     * too many failed tasks; the flag records whether anything was found
     * and, when an operations agent exists, one alert is queued for it.
     */
    method DetectAnomalies(kpis: Entries, agents: AgentsView, now: nat, id: string) returns (r: Result<seq<Anomaly>, PyError>)
      modifies this
      ensures KpiAnomalies(kpis).Err? ==> r == Err(KpiAnomalies(kpis).error)
      ensures KpiAnomalies(kpis).Ok? ==> r == Ok(KpiAnomalies(kpis).value + FailureScan(agents))
      ensures r.Err? ==> anomalyDetected == old(anomalyDetected) && messages == old(messages)
      ensures r.Ok? ==> anomalyDetected == (r.value != [])
      ensures r.Ok? ==> messages == old(messages) + AnomalyAlerts(r.value, agents, now, id)
    {
      r := Detect(kpis, agents);
      if r.Ok? {
        anomalyDetected := r.value != [];
        messages := messages + AnomalyAlerts(r.value, agents, now, id);
      }
    }
  }
}
