// src/agents/customer_support.py: the keyword classifiers, the knowledge-base
// lookup, the issue, ticket and satisfaction bookkeeping of the customer
// support agent. Its reasoning calls are not modelled.
module CustomerSupport {
  import opened Wrappers
  import opened Py
  import opened Base
  import opened Strings
  import Clock

  // ---------------------------------------------------------------------------
  // Classifiers
  // ---------------------------------------------------------------------------

  const UrgentKeywords: seq<string> :=
    ["critical", "emergency", "urgent", "break", "down", "cannot use", "not working", "fire"]
  const ComplexKeywords: seq<string> :=
    ["integration", "architecture", "strategy", "roadmap", "complex", " difficult", "expensive"]
  const SystemicKeywords: seq<string> :=
    ["multiple users", "many users", "system", "global", "widespread", "outage", "down"]
  const IssueKeywords: seq<string> := ["bug", "error", "slow", "crash", "don't work", "issue", "problem"]

  /**
   * `_classify_issue`: an urgent keyword anywhere in the lower-cased question
   * wins over a complex one; everything else, knowledge questions included,
   * is routine.
   */
  function ClassifyIssue(question: string): (r: string)
    ensures r == "urgent" <==> ContainsAny(Lower(question), UrgentKeywords)
    ensures r == "complex" <==> !ContainsAny(Lower(question), UrgentKeywords) && ContainsAny(Lower(question), ComplexKeywords)
    ensures r == "routine" <==> !ContainsAny(Lower(question), UrgentKeywords) && !ContainsAny(Lower(question), ComplexKeywords)
  {
    var q := Lower(question);
    if ContainsAny(q, UrgentKeywords) then "urgent"
    else if ContainsAny(q, ComplexKeywords) then "complex"
    else "routine"
  }

  /** An urgent keyword outranks a complex one in the same question. */
  lemma ClassifyExample()
    ensures ClassifyIssue("DOWN") == "urgent"
  {
    assert Lower("DOWN") == "down";
    assert OccursAt("down", UrgentKeywords[4], 0);
  }

  /**
   * `_is_systemic_issue`: a critical or high severity, or a systemic keyword
   * in the lower-cased message. A message that is not text has no `lower`.
   */
  function IsSystemicIssue(alert: Entries): (r: Result<bool, PyError>)
    ensures r.Err? <==> !GetS(alert, "message", PStr("")).PStr?
    ensures r.Err? ==> r.error == AttributeError
    ensures r.Ok? ==> (r.value <==>
      GetS(alert, "severity", PStr("")) in [PStr("critical"), PStr("high")]
      || ContainsAny(Lower(GetS(alert, "message", PStr("")).s), SystemicKeywords))
  {
    match LowerOf(GetS(alert, "message", PStr("")))
    case Err(e) => Err(e)
    case Ok(message) =>
      var severity := GetS(alert, "severity", PStr(""));
      Ok(severity == PStr("critical") || severity == PStr("high") || ContainsAny(message, SystemicKeywords))
  }

  // ---------------------------------------------------------------------------
  // Knowledge base
  // ---------------------------------------------------------------------------

  predicate KbMatch(query: string, question: string)
  {
    Contains(Lower(question), Lower(query)) || Contains(Lower(query), Lower(question))
  }

  /** The first entry whose query matches the question. */
  function FirstKbMatch(kb: seq<(string, string)>, question: string): (r: Option<nat>)
    ensures r.None? <==> forall i :: 0 <= i < |kb| ==> !KbMatch(kb[i].0, question)
    ensures r.Some? ==> r.value < |kb| && KbMatch(kb[r.value].0, question)
                        && forall i :: 0 <= i < r.value ==> !KbMatch(kb[i].0, question)
  {
    if kb == [] then None
    else if KbMatch(kb[0].0, question) then Some(0)
    else match FirstKbMatch(kb[1..], question)
      case None => None
      case Some(i) => Some(i + 1)
  }

  const KbEmptyReply := "I'm processing your query. Could you provide more details about your issue?"

  function KbMissReply(question: string): string
  {
    "I don't have specific information about '" + question
    + "' in my knowledge base. A support ticket has been created for further assistance."
  }

  /**
   * `_query_knowledge_base`: with an empty base a fixed prompt; otherwise the
   * answer of the first entry whose query and the question contain one
   * another (ignoring case), or a not-found text naming the question.
   */
  function QueryKnowledgeBase(kb: seq<(string, string)>, question: string): (r: string)
    ensures kb == [] ==> r == KbEmptyReply
    ensures kb != [] && FirstKbMatch(kb, question).None? ==> r == KbMissReply(question)
    ensures kb != [] && FirstKbMatch(kb, question).Some? ==> r == kb[FirstKbMatch(kb, question).value].1
  {
    if kb == [] then KbEmptyReply
    else match FirstKbMatch(kb, question)
      case None => KbMissReply(question)
      case Some(i) => kb[i].1
  }

  // ---------------------------------------------------------------------------
  // Common issues
  // ---------------------------------------------------------------------------

  /** One entry of `common_issues`. */
  datatype Issue = Issue(keyword: string, count: int, lastSeen: nat, category: string)

  /** The issue keywords found in lower-cased feedback, in keyword-list order. */
  function FoundIn(keywords: seq<string>, text: string): (r: seq<string>)
    ensures |r| <= |keywords|
    ensures forall k :: k in r <==> k in keywords && Contains(text, k)
  {
    if keywords == [] then []
    else (if Contains(text, keywords[0]) then [keywords[0]] else []) + FoundIn(keywords[1..], text)
  }

  function FirstIssue(issues: seq<Issue>, kw: string): (r: Option<nat>)
    ensures r.None? <==> forall i :: 0 <= i < |issues| ==> issues[i].keyword != kw
    ensures r.Some? ==> r.value < |issues| && issues[r.value].keyword == kw
                        && forall i :: 0 <= i < r.value ==> issues[i].keyword != kw
  {
    if issues == [] then None
    else if issues[0].keyword == kw then Some(0)
    else match FirstIssue(issues[1..], kw)
      case None => None
      case Some(i) => Some(i + 1)
  }

  /** One found keyword: its entry counts once more, or a new technical entry with count 1 is appended. */
  function BumpIssue(issues: seq<Issue>, kw: string, now: nat): seq<Issue>
  {
    match FirstIssue(issues, kw)
    case None => issues + [Issue(kw, 1, now, "technical")]
    case Some(i) => issues[i := issues[i].(count := issues[i].count + 1, lastSeen := now)]
  }

  function RecordIssues(issues: seq<Issue>, kws: seq<string>, now: nat): seq<Issue>
    decreases |kws|
  {
    if kws == [] then issues else RecordIssues(BumpIssue(issues, kws[0], now), kws[1..], now)
  }

  /** How often a keyword has been seen: the count of its entry, 0 without one. */
  function IssueCount(issues: seq<Issue>, kw: string): int
  {
    match FirstIssue(issues, kw)
    case None => 0
    case Some(i) => issues[i].count
  }

  predicate UniqueKeywords(issues: seq<Issue>)
  {
    forall i, j :: 0 <= i < j < |issues| ==> issues[i].keyword != issues[j].keyword
  }

  /** A bump keeps keywords unique and adds an entry only for a keyword not seen before. */
  lemma BumpIssueUnique(issues: seq<Issue>, kw: string, now: nat)
    ensures UniqueKeywords(issues) ==> UniqueKeywords(BumpIssue(issues, kw, now))
    ensures |BumpIssue(issues, kw, now)| == |issues| + (if FirstIssue(issues, kw).None? then 1 else 0)
  {
    var out := BumpIssue(issues, kw, now);
    assert forall i :: 0 <= i < |issues| ==> out[i].keyword == issues[i].keyword;
  }

  /** A bump moves only the bumped keyword's count, by one. */
  lemma BumpIssueCount(issues: seq<Issue>, kw: string, now: nat, k: string)
    ensures IssueCount(BumpIssue(issues, kw, now), k) == IssueCount(issues, k) + (if k == kw then 1 else 0)
  {
    match FirstIssue(issues, kw)
    case None =>
      BumpAppendCount(issues, kw, now, k);
      assert BumpIssue(issues, kw, now) == issues + [Issue(kw, 1, now, "technical")];
    case Some(i) =>
      BumpInPlaceCount(issues, kw, now, k, i);
      assert BumpIssue(issues, kw, now) == issues[i := issues[i].(count := issues[i].count + 1, lastSeen := now)];
  }

  lemma BumpAppendCount(issues: seq<Issue>, kw: string, now: nat, k: string)
    requires FirstIssue(issues, kw).None?
    ensures IssueCount(issues + [Issue(kw, 1, now, "technical")], k) == IssueCount(issues, k) + (if k == kw then 1 else 0)
  {
    var out := issues + [Issue(kw, 1, now, "technical")];
    assert forall i :: 0 <= i < |issues| ==> out[i] == issues[i];
    var fk := FirstIssue(issues, k);
    if fk.Some? {
      assert FirstIssue(out, k) == fk;
    } else if k == kw {
      assert out[|issues|].keyword == kw;
      assert FirstIssue(out, k) == Some(|issues|);
    } else {
      assert FirstIssue(out, k).None?;
    }
  }

  lemma BumpInPlaceCount(issues: seq<Issue>, kw: string, now: nat, k: string, i: nat)
    requires FirstIssue(issues, kw) == Some(i)
    ensures var out := issues[i := issues[i].(count := issues[i].count + 1, lastSeen := now)];
      IssueCount(out, k) == IssueCount(issues, k) + (if k == kw then 1 else 0)
  {
    var out := issues[i := issues[i].(count := issues[i].count + 1, lastSeen := now)];
    assert forall j :: 0 <= j < |issues| ==> out[j].keyword == issues[j].keyword;
    var fk := FirstIssue(issues, k);
    if fk.Some? {
      assert FirstIssue(out, k) == fk;
    } else {
      assert FirstIssue(out, k).None?;
    }
  }

  /**
   * `_analyze_common_issues` over a list of distinct found keywords: each
   * found keyword counts once more, every other count stays, and keywords
   * stay unique.
   */
  lemma {:induction false} RecordIssuesCount(issues: seq<Issue>, kws: seq<string>, now: nat, k: string)
    requires forall i, j :: 0 <= i < j < |kws| ==> kws[i] != kws[j]
    ensures IssueCount(RecordIssues(issues, kws, now), k) == IssueCount(issues, k) + (if k in kws then 1 else 0)
    ensures UniqueKeywords(issues) ==> UniqueKeywords(RecordIssues(issues, kws, now))
    decreases |kws|
  {
    if kws != [] {
      BumpIssueCount(issues, kws[0], now, k);
      BumpIssueUnique(issues, kws[0], now);
      RecordIssuesCount(BumpIssue(issues, kws[0], now), kws[1..], now, k);
      assert k in kws <==> k == kws[0] || k in kws[1..];
      assert kws[0] !in kws[1..];
    }
  }

  lemma {:induction false} FoundInDistinct(keywords: seq<string>, text: string)
    requires forall i, j :: 0 <= i < j < |keywords| ==> keywords[i] != keywords[j]
    ensures forall i, j :: 0 <= i < j < |FoundIn(keywords, text)| ==> FoundIn(keywords, text)[i] != FoundIn(keywords, text)[j]
  {
    if keywords != [] {
      FoundInDistinct(keywords[1..], text);
      var rest := FoundIn(keywords[1..], text);
      assert keywords[0] !in keywords[1..];
      assert keywords[0] !in rest;
    }
  }

  /**
   * `_analyze_common_issues` on lower-cased feedback: every issue keyword
   * in it counts once more, every other count stays, keywords stay unique.
   */
  lemma AnalyzeCounts(issues: seq<Issue>, text: string, now: nat, k: string)
    requires UniqueKeywords(issues)
    ensures var out := RecordIssues(issues, FoundIn(IssueKeywords, text), now);
      UniqueKeywords(out)
      && IssueCount(out, k) == IssueCount(issues, k) + (if k in IssueKeywords && Contains(text, k) then 1 else 0)
  {
    assert forall i, j :: 0 <= i < j < |IssueKeywords| ==> IssueKeywords[i][0] != IssueKeywords[j][0] || IssueKeywords[i][1] != IssueKeywords[j][1];
    var found := FoundIn(IssueKeywords, text);
    FoundInDistinct(IssueKeywords, text);
    assert forall i, j :: 0 <= i < j < |found| ==> found[i] != found[j];
    RecordIssuesCount(issues, found, now, k);
  }

  /** `_analyze_issue_trend`: the number of issues seen more than twice sets the trend. */
  function HotCount(issues: seq<Issue>): (n: nat)
    ensures n <= |issues|
  {
    if issues == [] then 0 else (if issues[0].count > 2 then 1 else 0) + HotCount(issues[1..])
  }

  function IssueTrend(issues: seq<Issue>): (r: string)
    ensures issues == [] <==> r == "no_data"
    ensures issues != [] ==> (r == "increasing" <==> HotCount(issues) > 3)
    ensures issues != [] ==> (r == "decreasing" <==> HotCount(issues) < 2)
    ensures issues != [] ==> (r == "stable" <==> 2 <= HotCount(issues) <= 3)
  {
    if issues == [] then "no_data"
    else if HotCount(issues) > 3 then "increasing"
    else if HotCount(issues) < 2 then "decreasing"
    else "stable"
  }

  /** `_analyze_issue_trend` needs more than three issues to report an increase. */
  lemma IncreasingNeedsFour(issues: seq<Issue>)
    ensures IssueTrend(issues) == "increasing" ==> |issues| >= 4
  {
  }

  // ---------------------------------------------------------------------------
  // Satisfaction
  // ---------------------------------------------------------------------------

  /** One entry of `satisfaction_scores`. */
  datatype ScoreEntry = ScoreEntry(userId: Obj, score: Obj, timestamp: nat)

  /** Whether an entry is kept by the positive-score filter; a score that is not a number cannot be compared. */
  predicate Numeric(e: ScoreEntry) { NumberOf(e.score).Some? }

  predicate PositiveScore(e: ScoreEntry) { NumberOf(e.score).Some? && NumberOf(e.score).value > 0.0 }

  /** `[s for s in scores if s.get("score", 0) > 0]`. */
  function KeepPositive(xs: seq<ScoreEntry>): (r: Result<seq<ScoreEntry>, PyError>)
    ensures r.Ok? <==> forall i :: 0 <= i < |xs| ==> Numeric(xs[i])
    ensures r.Err? ==> r.error == TypeError
    ensures r.Ok? ==> |r.value| <= |xs| && forall e :: e in r.value <==> e in xs && PositiveScore(e)
  {
    if xs == [] then Ok([])
    else if !Numeric(xs[0]) then Err(TypeError)
    else match KeepPositive(xs[1..])
      case Err(e) => Err(e)
      case Ok(rest) => Ok(if PositiveScore(xs[0]) then [xs[0]] + rest else rest)
  }

  /** The sum of the scores, None when one of them is not a number. */
  function ScoreTotal(xs: seq<ScoreEntry>): (r: Option<real>)
    ensures r.Some? <==> forall i :: 0 <= i < |xs| ==> Numeric(xs[i])
  {
    if xs == [] then Some(0.0)
    else match NumberOf(xs[0].score)
      case None => None
      case Some(v) => match ScoreTotal(xs[1..]) case None => None case Some(t) => Some(v + t)
  }

  lemma {:induction false} ScoreTotalNonNegative(xs: seq<ScoreEntry>)
    requires forall i :: 0 <= i < |xs| ==> PositiveScore(xs[i])
    ensures ScoreTotal(xs).Some? && ScoreTotal(xs).value >= 0.0
    decreases |xs|
  {
    if xs != [] {
      ScoreTotalNonNegative(xs[1..]);
    }
  }

  /**
   * `_calculate_average_satisfaction`: 0.0 for no scores, otherwise the mean
   * score rounded to two places; a score that is not a number cannot be summed.
   */
  function AverageSatisfaction(xs: seq<ScoreEntry>): (r: Result<real, PyError>)
    ensures xs == [] ==> r == Ok(0.0)
    ensures xs != [] ==> (r.Ok? <==> ScoreTotal(xs).Some?)
    ensures xs != [] && r.Ok? ==> r.value == Round2(ScoreTotal(xs).value / |xs| as real)
    ensures r.Err? ==> r.error == TypeError
  {
    if xs == [] then Ok(0.0)
    else match ScoreTotal(xs)
      case None => Err(TypeError)
      case Some(t) => Ok(Round2(t / |xs| as real))
  }

  /** After the positive filter the average lies within half a cent of the mean and is never negative. */
  lemma AverageOfPositives(xs: seq<ScoreEntry>)
    requires forall i :: 0 <= i < |xs| ==> PositiveScore(xs[i])
    ensures AverageSatisfaction(xs).Ok?
    ensures AverageSatisfaction(xs).value >= 0.0
    ensures xs != [] ==> -0.005 <= AverageSatisfaction(xs).value - ScoreTotal(xs).value / |xs| as real <= 0.005
  {
    ScoreTotalNonNegative(xs);
    if xs != [] {
      var mean := ScoreTotal(xs).value / |xs| as real;
      assert mean >= 0.0;
      Round2NonNegative(mean);
    }
  }

  // ---------------------------------------------------------------------------
  // Tickets
  // ---------------------------------------------------------------------------

  /** One entry of `open_tickets`. */
  datatype Ticket = Ticket(ticketId: string, userId: Obj, issue: Obj, classification: string,
                           escalatedTo: string, escalatedAt: nat, priority: string, status: string)

  function TicketObj(t: Ticket): Obj
  {
    PDict(StrDict([("ticket_id", PStr(t.ticketId)), ("user_id", t.userId), ("issue", t.issue),
                   ("classification", PStr(t.classification)), ("escalated_to", PStr(t.escalatedTo)),
                   ("escalated_at", PStr(Clock.Format(t.escalatedAt))), ("priority", PStr(t.priority)),
                   ("status", PStr(t.status))]))
  }

  /** The ticket `_escalate_issue` opens: the issue is the question, or the issue field when the question is falsy. */
  function EscalationTicket(inquiry: Entries, target: Role, id: string, now: nat): (t: Ticket)
    ensures t.status == "pending" && t.ticketId == id && t.escalatedTo == RoleValue(target)
    ensures t.classification == "complex" <==> target == CPO
    ensures t.classification == "urgent" <==> target != CPO
    ensures t.priority == "high" <==> target == CEO
    ensures t.priority == "medium" <==> target != CEO
    ensures Truthy(GetS(inquiry, "question", PStr(""))) ==> t.issue == GetS(inquiry, "question", PStr(""))
    ensures !Truthy(GetS(inquiry, "question", PStr(""))) ==> t.issue == GetS(inquiry, "issue", PStr(""))
  {
    var question := GetS(inquiry, "question", PStr(""));
    Ticket(id, GetS(inquiry, "user_id", PStr("unknown")),
           if Truthy(question) then question else GetS(inquiry, "issue", PStr("")),
           if target == CPO then "complex" else "urgent", RoleValue(target), now,
           if target == CEO then "high" else "medium", "pending")
  }

  /** `question[:50]` for the task title; only sequences can be sliced. */
  function Head50(o: Obj): (r: Result<string, PyError>)
    ensures o.PStr? ==> r == Ok(if |o.s| <= 50 then o.s else o.s[..50])
    ensures r.Err? <==> !(o.PStr? || o.PList? || o.PTuple?)
  {
    match o
    case PStr(s) => Ok(if |s| <= 50 then s else s[..50])
    case PList(items) => Ok(Show(PList(if |items| <= 50 then items else items[..50])))
    case PTuple(items) => Ok(Show(PTuple(if |items| <= 50 then items else items[..50])))
    case _ => Err(TypeError)
  }

  // ---------------------------------------------------------------------------
  // The agent
  // ---------------------------------------------------------------------------

  class CustomerSupportAgent {
    var knowledgeBase: seq<(string, string)>
    var openTickets: seq<Ticket>
    var userSentiment: Entries
    var commonIssues: seq<Issue>
    var satisfactionScores: seq<ScoreEntry>

    constructor ()
      ensures knowledgeBase == [] && openTickets == [] && userSentiment == [] && commonIssues == [] && satisfactionScores == []
    {
      knowledgeBase := [];
      openTickets := [];
      userSentiment := [];
      commonIssues := [];
      satisfactionScores := [];
    }

    /** The loop of `_analyze_common_issues` over the found keywords. */
    static method RecordFound(start: seq<Issue>, found: seq<string>, now: nat) returns (issues: seq<Issue>)
      ensures issues == RecordIssues(start, found, now)
    {
      issues := start;
      var i := 0;
      while i < |found|
        invariant 0 <= i <= |found|
        invariant RecordIssues(issues, found[i..], now) == RecordIssues(start, found, now)
      {
        assert found[i..][1..] == found[i + 1..];
        var kw := found[i];
        var existing := FirstIssue(issues, kw);
        if existing.Some? {
          var j := existing.value;
          issues := issues[j := issues[j].(count := issues[j].count + 1, lastSeen := now)];
        } else {
          issues := issues + [Issue(kw, 1, now, "technical")];
        }
        i := i + 1;
      }
      assert found[i..] == [];
    }

    /**
     * `_analyze_common_issues`: nothing for falsy feedback; feedback that is
     * not text has no `lower`; otherwise each issue keyword found in it is
     * recorded.
     */
    method AnalyzeCommonIssues(feedback: Obj, now: nat) returns (err: Option<PyError>)
      modifies this
      ensures !Truthy(feedback) ==> err == None && commonIssues == old(commonIssues)
      ensures Truthy(feedback) && !feedback.PStr? ==> err == Some(AttributeError) && commonIssues == old(commonIssues)
      ensures Truthy(feedback) && feedback.PStr? ==>
        err == None && commonIssues == RecordIssues(old(commonIssues), FoundIn(IssueKeywords, Lower(feedback.s)), now)
      ensures knowledgeBase == old(knowledgeBase) && openTickets == old(openTickets)
      ensures userSentiment == old(userSentiment) && satisfactionScores == old(satisfactionScores)
    {
      if !Truthy(feedback) {
        return None;
      }
      if !feedback.PStr? {
        return Some(AttributeError);
      }
      commonIssues := RecordFound(commonIssues, FoundIn(IssueKeywords, Lower(feedback.s)), now);
      return None;
    }

    /**
     * `_collect_feedback`: the user's sentiment entry is overwritten, the score
     * appended; a positive score then drops every non-positive entry, and the
     * feedback text is analysed for common issues. An unhashable user id is
     * refused before anything changes; a score that is not a number fails
     * the comparison once it has been appended.
     */
    method CollectFeedback(data: Entries, now: nat) returns (err: Option<PyError>)
      modifies this
      ensures var uid := FeedbackUser(data);
        Unhashable(uid) ==>
          err == Some(TypeError) && userSentiment == old(userSentiment)
          && satisfactionScores == old(satisfactionScores) && commonIssues == old(commonIssues)
      ensures var uid := FeedbackUser(data);
        !Unhashable(uid) ==> userSentiment == SetItem(old(userSentiment), uid, SentimentRecord(data, now))
      ensures var uid := FeedbackUser(data);
        var score := GetS(data, "satisfaction_score", PInt(0));
        var appended := old(satisfactionScores) + [ScoreEntry(uid, score, now)];
        !Unhashable(uid) ==>
          (NumberOf(score).None? ==> err == Some(TypeError) && satisfactionScores == appended && commonIssues == old(commonIssues))
          && (NumberOf(score).Some? && NumberOf(score).value <= 0.0 ==> satisfactionScores == appended)
          && (NumberOf(score).Some? && NumberOf(score).value > 0.0 && KeepPositive(appended).Err? ==>
                err == Some(TypeError) && satisfactionScores == appended && commonIssues == old(commonIssues))
          && (NumberOf(score).Some? && NumberOf(score).value > 0.0 && KeepPositive(appended).Ok? ==>
                satisfactionScores == KeepPositive(appended).value)
      ensures var uid := FeedbackUser(data);
        var score := GetS(data, "satisfaction_score", PInt(0));
        var appended := old(satisfactionScores) + [ScoreEntry(uid, score, now)];
        var fb := GetS(data, "feedback", PStr(""));
        !Unhashable(uid) && NumberOf(score).Some? && (NumberOf(score).value <= 0.0 || KeepPositive(appended).Ok?) ==>
          (!Truthy(fb) ==> err == None && commonIssues == old(commonIssues))
          && (Truthy(fb) && !fb.PStr? ==> err == Some(AttributeError) && commonIssues == old(commonIssues))
          && (Truthy(fb) && fb.PStr? ==>
                err == None && commonIssues == RecordIssues(old(commonIssues), FoundIn(IssueKeywords, Lower(fb.s)), now))
      ensures knowledgeBase == old(knowledgeBase) && openTickets == old(openTickets)
    {
      var uid := FeedbackUser(data);
      if Unhashable(uid) {
        return Some(TypeError);
      }
      var score := GetS(data, "satisfaction_score", PInt(0));
      userSentiment := SetItem(userSentiment, uid, SentimentRecord(data, now));
      satisfactionScores := satisfactionScores + [ScoreEntry(uid, score, now)];
      var n := NumberOf(score);
      if n.None? {
        return Some(TypeError);
      }
      if n.value > 0.0 {
        var kept := KeepPositive(satisfactionScores);
        if kept.Err? {
          return Some(kept.error);
        }
        satisfactionScores := kept.value;
      }
      err := AnalyzeCommonIssues(GetS(data, "feedback", PStr("")), now);
    }

    /**
     * `_escalate_issue`: exactly one pending ticket is appended; when the
     * company state knows the target agent, a task assignment carrying the
     * ticket is returned for the message list. Its title slices the question,
     * which fails for values that cannot be sliced.
     */
    method EscalateIssue(inquiry: Entries, target: Role, targetKnown: bool, id: string, msgId: string, now: nat)
      returns (r: Result<Option<Message>, PyError>)
      modifies this
      ensures openTickets == old(openTickets) + [EscalationTicket(inquiry, target, id, now)]
      ensures !targetKnown ==> r == Ok(None)
      ensures targetKnown ==> (r.Err? <==> Head50(GetS(inquiry, "question", PStr(""))).Err?)
      ensures targetKnown && r.Ok? ==> r.value.Some? && r.value.value == EscalationMessage(inquiry, target, id, msgId, now)
      ensures targetKnown && r.Ok? ==>
        r.value.value.messageType == TaskAssignment && r.value.value.recipient == target
        && r.value.value.sender == CustomerSupport && (r.value.value.priority == High <==> target == CEO)
      ensures knowledgeBase == old(knowledgeBase) && userSentiment == old(userSentiment)
      ensures commonIssues == old(commonIssues) && satisfactionScores == old(satisfactionScores)
    {
      var ticket := EscalationTicket(inquiry, target, id, now);
      openTickets := openTickets + [ticket];
      if !targetKnown {
        return Ok(None);
      }
      var head := Head50(GetS(inquiry, "question", PStr("")));
      if head.Err? {
        return Err(head.error);
      }
      return Ok(Some(EscalationMessage(inquiry, target, id, msgId, now)));
    }
  }

  /** The user `_collect_feedback` files feedback under: `user_id` if truthy, else `user_identifier` or "anonymous". */
  function FeedbackUser(data: Entries): Obj
  {
    var uid := Get(data, PStr("user_id"), PNone);
    if Truthy(uid) then uid else GetS(data, "user_identifier", PStr("anonymous"))
  }

  function SentimentRecord(data: Entries, now: nat): Obj
  {
    PDict(StrDict([("sentiment", GetS(data, "sentiment", PStr("neutral"))),
                   ("feedback", GetS(data, "feedback", PStr(""))),
                   ("timestamp", PStr(Clock.Format(now)))]))
  }

  /** The task assignment `_escalate_issue` sends to a known target agent. */
  function EscalationMessage(inquiry: Entries, target: Role, id: string, msgId: string, now: nat): (m: Message)
    requires Head50(GetS(inquiry, "question", PStr(""))).Ok?
    ensures m.messageType == TaskAssignment && m.sender == CustomerSupport && m.recipient == target
    ensures m.priority == (if target == CEO then High else Medium)
  {
    var question := GetS(inquiry, "question", PStr(""));
    var ticket := EscalationTicket(inquiry, target, id, now);
    var task := NewTask(id, "Customer Issue: " + Head50(question).value, "Customer escalation: " + Show(question),
                        target, CustomerSupport, if target == CEO then High else Medium, None, now)
                .(metadata := StrDict([("customer_support_ticket", TicketObj(ticket)), ("origin", PStr("customer_support"))]));
    CreateTaskAssignment(CustomerSupport, target, task, now, msgId)
  }
}
