// src/agents/cpo.py: MoSCoW feature prioritisation, the capped user-feedback
// log with its sentiment summary and net promoter score, and the CPO's task
// and approval routing. Its reasoning calls are oracles.
module Cpo {
  import opened Wrappers
  import opened Py
  import opened Base
  import opened Strings
  import Clock
  import Utils

  // ---------------------------------------------------------------------------
  // MoSCoW prioritisation
  // ---------------------------------------------------------------------------

  const Must := "必须"
  const Should := "应该"
  const Could := "可以"
  const Wont := "不会"

  /** The MoSCoW bucket of a lower-cased priority. */
  function MoscowTag(p: string): (r: string)
    ensures (p == "must" || p == "high") <==> r == Must
    ensures (p == "should" || p == "medium") <==> r == Should
    ensures (p == "could" || p == "low") <==> r == Could
    ensures r == Must || r == Should || r == Could || r == Wont
  {
    if p == "must" || p == "high" then Must
    else if p == "should" || p == "medium" then Should
    else if p == "could" || p == "low" then Could
    else Wont
  }

  /** The sort key: the bucket's rank, 5 for a feature without a known bucket. */
  function Rank(feature: Obj): (r: nat)
    ensures 1 <= r <= 5
  {
    if !feature.PDict? then 5
    else
      var tag := Lookup(feature.entries, PStr("moscow_priority"));
      if tag == Some(PStr(Must)) then 1
      else if tag == Some(PStr(Should)) then 2
      else if tag == Some(PStr(Could)) then 3
      else if tag == Some(PStr(Wont)) then 4
      else 5
  }

  /** The features of one rank, in their original order. */
  function OfRank(xs: seq<Obj>, k: nat): (r: seq<Obj>)
    ensures |r| <= |xs|
    ensures forall i :: 0 <= i < |r| ==> Rank(r[i]) == k
  {
    if xs == [] then [] else (if Rank(xs[0]) == k then [xs[0]] else []) + OfRank(xs[1..], k)
  }

  /** `list.sort(key=rank)`: stable, so the result is the rank buckets in rank order. */
  function SortByRank(xs: seq<Obj>): seq<Obj>
  {
    OfRank(xs, 1) + OfRank(xs, 2) + OfRank(xs, 3) + OfRank(xs, 4) + OfRank(xs, 5)
  }

  lemma {:induction false} OfRankConcat(xs: seq<Obj>, ys: seq<Obj>, k: nat)
    ensures OfRank(xs + ys, k) == OfRank(xs, k) + OfRank(ys, k)
    decreases |xs|
  {
    if xs != [] {
      var zs := xs + ys;
      var head := if Rank(xs[0]) == k then [xs[0]] else [];
      assert zs[0] == xs[0] && zs[1..] == xs[1..] + ys;
      OfRankConcat(xs[1..], ys, k);
      calc {
        OfRank(zs, k);
        head + OfRank(zs[1..], k);
        head + (OfRank(xs[1..], k) + OfRank(ys, k));
        (head + OfRank(xs[1..], k)) + OfRank(ys, k);
        OfRank(xs, k) + OfRank(ys, k);
      }
    } else {
      assert xs + ys == ys;
    }
  }

  lemma {:induction false} OfRankOther(xs: seq<Obj>, j: nat, k: nat)
    ensures OfRank(OfRank(xs, j), k) == if j == k then OfRank(xs, j) else []
    decreases |xs|
  {
    if xs != [] {
      OfRankOther(xs[1..], j, k);
      var head := if Rank(xs[0]) == j then [xs[0]] else [];
      OfRankConcat(head, OfRank(xs[1..], j), k);
    }
  }

  /** The sort is stable: the features of each rank keep their order. */
  lemma SortByRankStable(xs: seq<Obj>, k: nat)
    ensures OfRank(SortByRank(xs), k) == OfRank(xs, k)
  {
    var b1, b2, b3, b4, b5 := OfRank(xs, 1), OfRank(xs, 2), OfRank(xs, 3), OfRank(xs, 4), OfRank(xs, 5);
    OfRankConcat(b1 + b2 + b3 + b4, b5, k);
    OfRankConcat(b1 + b2 + b3, b4, k);
    OfRankConcat(b1 + b2, b3, k);
    OfRankConcat(b1, b2, k);
    OfRankOther(xs, 1, k);
    OfRankOther(xs, 2, k);
    OfRankOther(xs, 3, k);
    OfRankOther(xs, 4, k);
    OfRankOther(xs, 5, k);
    if k < 1 || k > 5 {
      OfRankNone(xs, k);
    }
    PickBucket(b1, b2, b3, b4, b5, OfRank(b1, k), OfRank(b2, k), OfRank(b3, k), OfRank(b4, k), OfRank(b5, k), k,
               OfRank(xs, k));
  }

  /** Of five buckets filtered by rank `k`, only bucket `k` is left. */
  lemma PickBucket(b1: seq<Obj>, b2: seq<Obj>, b3: seq<Obj>, b4: seq<Obj>, b5: seq<Obj>,
                   o1: seq<Obj>, o2: seq<Obj>, o3: seq<Obj>, o4: seq<Obj>, o5: seq<Obj>, k: nat, want: seq<Obj>)
    requires o1 == (if k == 1 then b1 else []) && o2 == (if k == 2 then b2 else [])
    requires o3 == (if k == 3 then b3 else []) && o4 == (if k == 4 then b4 else [])
    requires o5 == (if k == 5 then b5 else [])
    requires want == (if k == 1 then b1 else if k == 2 then b2 else if k == 3 then b3
                      else if k == 4 then b4 else if k == 5 then b5 else [])
    ensures o1 + o2 + o3 + o4 + o5 == want
  {
    if k == 1 {
      assert o1 + o2 + o3 + o4 + o5 == b1 + [] + [] + [] + [];
    } else if k == 2 {
      assert o1 + o2 + o3 + o4 + o5 == [] + b2 + [] + [] + [];
    } else if k == 3 {
      assert o1 + o2 + o3 + o4 + o5 == [] + [] + b3 + [] + [];
    } else if k == 4 {
      assert o1 + o2 + o3 + o4 + o5 == [] + [] + [] + b4 + [];
    } else if k == 5 {
      assert o1 + o2 + o3 + o4 + o5 == [] + [] + [] + [] + b5;
    } else {
      assert o1 + o2 + o3 + o4 + o5 == [] + [] + [] + [] + [];
    }
  }

  lemma {:induction false} OfRankNone(xs: seq<Obj>, k: nat)
    requires k < 1 || k > 5
    ensures OfRank(xs, k) == []
    decreases |xs|
  {
    if xs != [] {
      OfRankNone(xs[1..], k);
    }
  }

  /** The sorted features are in ascending rank order. */
  lemma SortByRankSorted(xs: seq<Obj>)
    ensures var r := SortByRank(xs); forall i, j :: 0 <= i < j < |r| ==> Rank(r[i]) <= Rank(r[j])
  {
    var b1, b2, b3, b4, b5 := OfRank(xs, 1), OfRank(xs, 2), OfRank(xs, 3), OfRank(xs, 4), OfRank(xs, 5);
    var r := SortByRank(xs);
    forall i, j | 0 <= i < j < |r|
      ensures Rank(r[i]) <= Rank(r[j])
    {
      var n1, n2, n3, n4 := |b1|, |b1| + |b2|, |b1| + |b2| + |b3|, |b1| + |b2| + |b3| + |b4|;
      assert forall p :: 0 <= p < |r| ==>
        Rank(r[p]) == (if p < n1 then 1 else if p < n2 then 2 else if p < n3 then 3 else if p < n4 then 4 else 5);
    }
  }

  function Buckets(xs: seq<Obj>): multiset<Obj>
  {
    multiset(OfRank(xs, 1)) + multiset(OfRank(xs, 2)) + multiset(OfRank(xs, 3))
    + multiset(OfRank(xs, 4)) + multiset(OfRank(xs, 5))
  }

  lemma {:induction false} OfRankCount(xs: seq<Obj>)
    ensures Buckets(xs) == multiset(xs)
    decreases |xs|
  {
    if xs != [] {
      var x := xs[0];
      var rest := xs[1..];
      assert xs == [x] + rest;
      OfRankCount(rest);
      BucketsHead(xs);
      assert multiset(xs) == multiset(rest) + multiset{x};
    }
  }

  lemma BucketsHead(xs: seq<Obj>)
    requires xs != []
    ensures Buckets(xs) == Buckets(xs[1..]) + multiset{xs[0]}
  {
    var rest := xs[1..];
    OfRankHead(xs, 1);
    OfRankHead(xs, 2);
    OfRankHead(xs, 3);
    OfRankHead(xs, 4);
    OfRankHead(xs, 5);
    BucketSum(multiset(OfRank(xs, 1)), multiset(OfRank(xs, 2)), multiset(OfRank(xs, 3)),
              multiset(OfRank(xs, 4)), multiset(OfRank(xs, 5)),
              multiset(OfRank(rest, 1)), multiset(OfRank(rest, 2)), multiset(OfRank(rest, 3)),
              multiset(OfRank(rest, 4)), multiset(OfRank(rest, 5)),
              multiset{xs[0]}, Rank(xs[0]));
  }

  /** Adding one element to exactly one of five buckets adds it to their sum. */
  lemma BucketSum(b1: multiset<Obj>, b2: multiset<Obj>, b3: multiset<Obj>, b4: multiset<Obj>, b5: multiset<Obj>,
                  a1: multiset<Obj>, a2: multiset<Obj>, a3: multiset<Obj>, a4: multiset<Obj>, a5: multiset<Obj>,
                  one: multiset<Obj>, k: nat)
    requires 1 <= k <= 5
    requires b1 == a1 + (if k == 1 then one else multiset{})
    requires b2 == a2 + (if k == 2 then one else multiset{})
    requires b3 == a3 + (if k == 3 then one else multiset{})
    requires b4 == a4 + (if k == 4 then one else multiset{})
    requires b5 == a5 + (if k == 5 then one else multiset{})
    ensures b1 + b2 + b3 + b4 + b5 == a1 + a2 + a3 + a4 + a5 + one
  {
  }

  lemma OfRankHead(xs: seq<Obj>, j: nat)
    requires xs != []
    ensures multiset(OfRank(xs, j)) == multiset(OfRank(xs[1..], j)) + (if Rank(xs[0]) == j then multiset{xs[0]} else multiset{})
  {
  }

  /** The sorted features are a permutation of the input. */
  lemma SortByRankPermutation(xs: seq<Obj>)
    ensures multiset(SortByRank(xs)) == multiset(xs)
  {
    OfRankCount(xs);
    assert multiset(SortByRank(xs)) == Buckets(xs);
  }

  /** One feature dict with its MoSCoW bucket written in; a priority that is not text has no `lower`. */
  function Tag(feature: Obj): (r: Result<Obj, PyError>)
    ensures r.Ok? ==> feature.PDict? && r.value.PDict?
    ensures !feature.PDict? ==> r == Err(AttributeError)
  {
    if !feature.PDict? then Err(AttributeError)
    else match LowerOf(GetS(feature.entries, "priority", PStr("medium")))
      case Err(e) => Err(e)
      case Ok(p) => Ok(PDict(SetItem(feature.entries, PStr("moscow_priority"), PStr(MoscowTag(p)))))
  }

  /** The tagging loop over the features, stopping at the first failure. */
  function TagAll(features: seq<Obj>): (r: Result<seq<Obj>, PyError>)
    ensures r.Ok? ==> |r.value| == |features|
    decreases |features|
  {
    if features == [] then Ok([])
    else match TagAll(features[..|features| - 1])
      case Err(e) => Err(e)
      case Ok(prefix) =>
        match Tag(features[|features| - 1])
        case Err(e) => Err(e)
        case Ok(t) => Ok(prefix + [t])
  }

  /** A tagged feature lands in the bucket of its priority. */
  lemma TagRank(feature: Obj)
    requires Tag(feature).Ok?
    ensures var p := Lower(GetS(feature.entries, "priority", PStr("medium")).s);
      Rank(Tag(feature).value) == (if p == "must" || p == "high" then 1
                                   else if p == "should" || p == "medium" then 2
                                   else if p == "could" || p == "low" then 3 else 4)
  {
  }

  /**
   * `_prioritize_features`: with the "moscow" method every feature is tagged
   * with its bucket and the list is stably sorted by bucket; any other method
   * returns the list as it is.
   */
  method PrioritizeFeatures(features: seq<Obj>, methodName: string) returns (r: Result<seq<Obj>, PyError>)
    ensures methodName != "moscow" ==> r == Ok(features)
    ensures methodName == "moscow" ==> r == (match TagAll(features) case Err(e) => Err(e) case Ok(t) => Ok(SortByRank(t)))
  {
    if methodName != "moscow" {
      return Ok(features);
    }
    var prioritized: seq<Obj> := [];
    var i := 0;
    while i < |features|
      invariant 0 <= i <= |features|
      invariant TagAll(features[..i]) == Ok(prioritized)
    {
      assert features[..i + 1][..i] == features[..i];
      var tagged := Tag(features[i]);
      if tagged.Err? {
        assert TagAll(features[..i + 1]) == Err(tagged.error);
        TagAllPrefixError(features, i + 1);
        return Err(tagged.error);
      }
      prioritized := prioritized + [tagged.value];
      i := i + 1;
    }
    assert features[..i] == features;
    return Ok(SortByRank(prioritized));
  }

  /** A failure while tagging a prefix is the failure of the whole list. */
  lemma {:induction false} TagAllPrefixError(features: seq<Obj>, n: nat)
    requires n <= |features| && TagAll(features[..n]).Err?
    ensures TagAll(features) == TagAll(features[..n])
    decreases |features| - n
  {
    if n < |features| {
      assert features[..n + 1][..n] == features[..n];
      TagAllPrefixError(features, n + 1);
    } else {
      assert features[..n] == features;
    }
  }

  // ---------------------------------------------------------------------------
  // User feedback
  // ---------------------------------------------------------------------------

  const FeedbackCap := 100

  /** The last `FeedbackCap` entries. */
  function KeepLast(xs: seq<Entries>): (r: seq<Entries>)
    ensures |r| == if |xs| > FeedbackCap then FeedbackCap else |xs|
    ensures r == xs[|xs| - |r|..]
  {
    if |xs| > FeedbackCap then xs[|xs| - FeedbackCap..] else xs
  }

  /** One feedback entry: its id and time stamp, then the submitted fields, which win on a clash. */
  function FeedbackEntry(data: Entries, id: string, now: nat): Entries
  {
    Update(StrDict([("feedback_id", PStr(id)), ("timestamp", PStr(Clock.Format(now)))]), data)
  }

  /** The counts `_summarize_feedback_sentiment` reports. */
  datatype SentimentSummary =
    | NoFeedback
    | Breakdown(total: nat, positive: nat, negative: nat, neutral: nat, nps: real)

  function CountSentiment(fs: seq<Entries>, s: string): (n: nat)
    ensures n <= |fs|
  {
    if fs == [] then 0
    else (if Lookup(fs[0], PStr("sentiment")) == Some(PStr(s)) then 1 else 0) + CountSentiment(fs[1..], s)
  }

  /** An entry has at most one sentiment, so the three counts never exceed the total. */
  lemma {:induction false} CountsBounded(fs: seq<Entries>)
    ensures CountSentiment(fs, "positive") + CountSentiment(fs, "negative") + CountSentiment(fs, "neutral") <= |fs|
    decreases |fs|
  {
    if fs != [] {
      CountsBounded(fs[1..]);
      assert "positive" != "negative" && "positive" != "neutral" && "negative" != "neutral" by {
        assert "positive"[2] != "negative"[2] && "positive"[2] != "neutral"[2] && "negative"[2] != "neutral"[2];
      }
    }
  }

  /** `_calculate_nps`. */
  function Nps(positive: nat, negative: nat): (r: real)
    ensures positive + negative == 0 ==> r == 0.0
    ensures -100.0 <= r <= 100.0
    ensures r > 0.0 <==> positive > negative
  {
    if positive + negative == 0 then 0.0
    else
      RatioBounds(positive as real - negative as real, (positive + negative) as real);
      (positive as real - negative as real) / (positive + negative) as real * 100.0
  }

  lemma RatioBounds(a: real, t: real)
    requires t > 0.0 && -t <= a <= t
    ensures -1.0 <= a / t <= 1.0
    ensures a / t > 0.0 <==> a > 0.0
  {
    var q := a / t;
    assert q * t == a;
  }

  /** `_summarize_feedback_sentiment`. */
  function SummarizeSentiment(fs: seq<Entries>): (r: SentimentSummary)
    ensures fs == [] <==> r.NoFeedback?
    ensures r.Breakdown? ==> r.total == |fs| && r.positive + r.negative + r.neutral <= r.total
    ensures r.Breakdown? ==> r.positive == CountSentiment(fs, "positive") && r.negative == CountSentiment(fs, "negative")
                             && r.neutral == CountSentiment(fs, "neutral")
    ensures r.Breakdown? ==> r.nps == Nps(r.positive, r.negative)
  {
    if fs == [] then NoFeedback
    else
      CountsBounded(fs);
      var p, n := CountSentiment(fs, "positive"), CountSentiment(fs, "negative");
      Breakdown(|fs|, p, n, CountSentiment(fs, "neutral"), Nps(p, n))
  }

  // ---------------------------------------------------------------------------
  // Routing
  // ---------------------------------------------------------------------------

  /**
   * `_handle_task_assignment`: a task whose title mentions development or a
   * feature is passed on to R&D at the requested priority; any other task is
   * dropped.
   */
  function HandleTaskAssignment(content: Entries, taskId: string, msgId: string, now: nat): (r: Result<Option<Message>, PyError>)
    ensures var task := GetS(content, "task", PDict([]));
      task.PDict? && GetS(task.entries, "title", PStr("")).PStr? ==>
        var title := Lower(GetS(task.entries, "title", PStr("")).s);
        (r == Ok(None) <==> !Contains(title, "development") && !Contains(title, "feature"))
        && (r.Ok? && r.value.Some? ==>
              r.value.value.messageType == TaskAssignment && r.value.value.recipient == RD && r.value.value.sender == CPO)
    ensures var task := GetS(content, "task", PDict([]));
      !task.PDict? || !GetS(task.entries, "title", PStr("")).PStr? ==> r == Err(AttributeError)
  {
    var task := GetS(content, "task", PDict([]));
    if task.PDict? && GetS(task.entries, "title", PStr("")).PStr? then
      ContainsAnyPair(Lower(GetS(task.entries, "title", PStr("")).s), "development", "feature");
      DelegateByTitle(content, ["development", "feature"], CPO, RD, taskId, msgId, now, [])
    else
      DelegateByTitle(content, ["development", "feature"], CPO, RD, taskId, msgId, now, [])
  }

  const ProductApprovalTypes: seq<Obj> := [PStr("feature_launch"), PStr("product_update"), PStr("new_feature")]

  /** `json.dumps(self.user_feedback[:5])` succeeds: the first five entries hold only JSON values. */
  predicate FeedbackJson(feedback: seq<Entries>)
  {
    forall i :: 0 <= i < |feedback| && i < 5 ==> Utils.Dumpable(PDict(feedback[i]))
  }

  /**
   * `json.dumps(self.roadmap[:3])` succeeds. The roadmap is whatever
   * `json.loads` gave the roadmap planner: text and lists slice, while a
   * dict, a number, a boolean or None cannot be sliced and raise TypeError.
   */
  predicate RoadmapDumps(roadmap: Obj)
  {
    match roadmap
    case PStr(_) => true
    case PList(items) => Utils.Dumpable(PList(if |items| <= 3 then items else items[..3]))
    case PTuple(items) => Utils.Dumpable(PTuple(if |items| <= 3 then items else items[..3]))
    case _ => false
  }

  /**
   * `_handle_approval_request`: a product request type is evaluated (by the
   * oracle: its decision, or the text of the exception that made the
   * evaluation fail); any other type is refused. The evaluation prompt dumps
   * the feature details, the first three roadmap items and the first five
   * feedback entries before the `try`, so any of them that cannot be sliced
   * or encoded is a TypeError (the backlog is never filled, so its slice is
   * always `[]`).
   */
  function HandleApprovalRequest(content: Entries, feedback: seq<Entries>, roadmap: Obj, sender: Role,
                                 oracle: Result<Obj, string>, now: nat, id: string): (r: Result<Message, PyError>)
    ensures r.Err? <==> GetS(content, "request_type", PStr("")) in ProductApprovalTypes
                        && !(Utils.Dumpable(GetS(content, "feature_details", PDict([]))) && RoadmapDumps(roadmap)
                             && FeedbackJson(feedback))
    ensures r.Err? ==> r.error == TypeError
    ensures r.Ok? ==> r.value.messageType == ApprovalResponse && r.value.recipient == sender && r.value.sender == CPO
    ensures GetS(content, "request_type", PStr("")) !in ProductApprovalTypes ==>
      r.Ok? && Lookup(r.value.content, PStr("approved")) == Some(PBool(false))
    ensures GetS(content, "request_type", PStr("")) in ProductApprovalTypes && roadmap.PDict? ==> r == Err(TypeError)
    ensures GetS(content, "request_type", PStr("")) in ProductApprovalTypes && oracle.Ok? && r.Ok? ==>
      Lookup(r.value.content, PStr("decision")) == Some(oracle.value)
  {
    var requestType := GetS(content, "request_type", PStr(""));
    var requestId := Get(content, PStr("request_id"), PNone);
    if requestType !in ProductApprovalTypes then
      var c := StrDict([("request_id", requestId), ("approved", PBool(false)),
                        ("reasoning", PStr("未知审批请求类型：" + Show(requestType)))]);
      assert c[1].0 == PStr("approved") && c[0].0 != c[1].0 by { assert "request_id"[0] != "approved"[0]; }
      Ok(CreateMessage(CPO, sender, ApprovalResponse, c, Medium, now, id))
    else if !(Utils.Dumpable(GetS(content, "feature_details", PDict([]))) && RoadmapDumps(roadmap) && FeedbackJson(feedback)) then
      Err(TypeError)
    else if oracle.Ok? then
      var c := StrDict([("request_id", requestId), ("decision", oracle.value),
                        ("evaluated_by", PStr("CPO")), ("product_review", PBool(true))]);
      assert c[1].0 == PStr("decision") && c[0].0 != c[1].0 by { assert "request_id"[0] != "decision"[0]; }
      Ok(CreateMessage(CPO, sender, ApprovalResponse, c, Medium, now, id))
    else
      Ok(CreateMessage(CPO, sender, ApprovalResponse,
                       StrDict([("request_id", requestId),
                                ("decision", PDict(StrDict([("approved", PBool(false)), ("reasoning", PStr("评估失败：" + oracle.error))])))]),
                       Medium, now, id))
  }

  // ---------------------------------------------------------------------------
  // The agent
  // ---------------------------------------------------------------------------

  class CpoAgent {
    var userFeedback: seq<Entries>

    constructor ()
      ensures userFeedback == []
    {
      userFeedback := [];
    }

    /** `_handle_user_feedback`: the entry is appended and only the newest hundred are kept. */
    method HandleUserFeedback(data: Entries, id: string, now: nat)
      modifies this
      ensures userFeedback == KeepLast(old(userFeedback) + [FeedbackEntry(data, id, now)])
      ensures |old(userFeedback)| <= FeedbackCap ==> |userFeedback| <= FeedbackCap
      ensures userFeedback[|userFeedback| - 1] == FeedbackEntry(data, id, now)
    {
      userFeedback := userFeedback + [FeedbackEntry(data, id, now)];
      if |userFeedback| > FeedbackCap {
        userFeedback := userFeedback[|userFeedback| - FeedbackCap..];
      }
    }
  }
}
