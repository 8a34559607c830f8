// The execution-history bookkeeping that agents/base_agent.go and
// agents/agent_base.go both carry: the bounded append, the replace-by-ID of
// `updateExecutionHistory`, and the counting loop of `GetExecutionStats`.
// Durations are integer ticks; Go divides them truncating toward zero.
module GoHistory {
  import opened GoTypes

  /** `historyMaxSize` of both agents. */
  const HistoryMaxSize := 10000

  /** The position of the first entry with execution ID `id`, or `|h|`. */
  function FindExecution(h: seq<ExecutionHistory>, id: string): (i: nat)
    ensures i <= |h|
    ensures i < |h| ==> h[i].executionId == id
    ensures forall j :: 0 <= j < i ==> h[j].executionId != id
  {
    if h == [] then 0 else if h[0].executionId == id then 0 else 1 + FindExecution(h[1..], id)
  }

  /** The first match is where the entry with the ID sits when no earlier one has it. */
  lemma FindExecutionAt(h: seq<ExecutionHistory>, id: string, i: nat)
    requires i <= |h| && (i < |h| ==> h[i].executionId == id)
    requires forall j :: 0 <= j < i ==> h[j].executionId != id
    requires i == |h| ==> forall j :: 0 <= j < |h| ==> h[j].executionId != id
    ensures FindExecution(h, id) == i
  {
  }

  /** The `for i, history := range ...` scan of `updateExecutionHistory`. */
  method ScanExecution(h: seq<ExecutionHistory>, id: string) returns (i: nat)
    ensures i == FindExecution(h, id)
  {
    i := 0;
    while i < |h|
      invariant 0 <= i <= |h|
      invariant FindExecution(h, id) >= i
    {
      if h[i].executionId == id {
        return;
      }
      i := i + 1;
    }
  }

  /** `updateExecutionHistory`: the first entry with the same execution ID is
      replaced in place, otherwise the entry is appended. */
  function Upserted(h: seq<ExecutionHistory>, x: ExecutionHistory): seq<ExecutionHistory>
  {
    var i := FindExecution(h, x.executionId);
    if i == |h| then h + [x] else h[i := x]
  }

  predicate UniqueExecutions(h: seq<ExecutionHistory>)
  {
    forall i, j :: 0 <= i < j < |h| ==> h[i].executionId != h[j].executionId
  }

  /** The entry ends up in the history exactly once per ID; it replaces the
      entry with its ID, or grows the history by one when there is none; every
      other entry keeps its place; unique IDs stay unique; and repeating the
      update changes nothing. */
  lemma UpsertedSpec(h: seq<ExecutionHistory>, x: ExecutionHistory)
    ensures x in Upserted(h, x)
    ensures (exists k :: 0 <= k < |h| && h[k].executionId == x.executionId) ==> |Upserted(h, x)| == |h|
    ensures (forall k :: 0 <= k < |h| ==> h[k].executionId != x.executionId) ==> Upserted(h, x) == h + [x]
    ensures forall k :: 0 <= k < |h| && h[k].executionId != x.executionId ==> Upserted(h, x)[k] == h[k]
    ensures UniqueExecutions(h) ==> UniqueExecutions(Upserted(h, x))
    ensures Upserted(Upserted(h, x), x) == Upserted(h, x)
  {
    var i := FindExecution(h, x.executionId);
    var r := Upserted(h, x);
    if i == |h| {
      assert r[|h|] == x;
      FindExecutionAt(r, x.executionId, |h|);
    } else {
      FindExecutionAt(r, x.executionId, i);
    }
  }

  /** `ProcessTask` adds a "processing" entry under a fresh execution ID and
      later updates it: the final entry takes the new entry's place, last in
      the history, and nothing else changes. */
  lemma AddThenUpdate(h: seq<ExecutionHistory>, x: ExecutionHistory, y: ExecutionHistory)
    requires forall k :: 0 <= k < |h| ==> h[k].executionId != x.executionId
    requires y.executionId == x.executionId
    ensures var b := Bounded(h, x, HistoryMaxSize);
      Upserted(b, y) == b[|b| - 1 := y]
  {
    var b := Bounded(h, x, HistoryMaxSize);
    forall k | 0 <= k < |b| - 1
      ensures b[k].executionId != x.executionId
    {
      assert b[k] in h;
    }
    assert FindExecution(b, x.executionId) == |b| - 1;
  }

  /** Entries whose status is `status`. */
  function Count(h: seq<ExecutionHistory>, status: string): (n: nat)
    ensures n <= |h|
    decreases |h|
  {
    if h == [] then 0 else Count(h[..|h| - 1], status) + (if h[|h| - 1].status == status then 1 else 0)
  }

  function TotalDuration(h: seq<ExecutionHistory>): int
    decreases |h|
  {
    if h == [] then 0 else TotalDuration(h[..|h| - 1]) + h[|h| - 1].duration
  }

  /** The latest timestamp, starting from the zero time. */
  function Latest(h: seq<ExecutionHistory>): nat
    decreases |h|
  {
    if h == [] then 0
    else
      var l := Latest(h[..|h| - 1]);
      if h[|h| - 1].timestamp > l then h[|h| - 1].timestamp else l
  }

  /** What the counting loop of `GetExecutionStats` accumulates. */
  datatype Tally = Tally(success: nat, failed: nat, timeout: nat, totalDuration: int, last: nat)

  /** The `switch history.Status` loop: one count per status, the sum of the
      durations and the latest timestamp. */
  method TallyOf(h: seq<ExecutionHistory>) returns (t: Tally)
    ensures t == Tally(Count(h, "success"), Count(h, "failed"), Count(h, "timeout"), TotalDuration(h), Latest(h))
  {
    t := Tally(0, 0, 0, 0, 0);
    var i := 0;
    while i < |h|
      invariant 0 <= i <= |h|
      invariant t == Tally(Count(h[..i], "success"), Count(h[..i], "failed"), Count(h[..i], "timeout"),
                           TotalDuration(h[..i]), Latest(h[..i]))
    {
      assert h[..i + 1][..i] == h[..i];
      var x := h[i];
      if x.status == "success" {
        t := t.(success := t.success + 1);
      } else if x.status == "failed" {
        t := t.(failed := t.failed + 1);
      } else if x.status == "timeout" {
        t := t.(timeout := t.timeout + 1);
      }
      t := t.(totalDuration := t.totalDuration + x.duration);
      if x.timestamp > t.last {
        t := t.(last := x.timestamp);
      }
      i := i + 1;
    }
    assert h[..i] == h;
  }

  /** No entry is counted under two statuses, so the counts add up to at most
      the number of entries. */
  lemma {:induction false} CountsBounded(h: seq<ExecutionHistory>)
    ensures Count(h, "success") + Count(h, "failed") + Count(h, "timeout") <= |h|
    decreases |h|
  {
    if h != [] {
      CountsBounded(h[..|h| - 1]);
    }
  }

  /** The latest timestamp is at least every entry's, and is one of them
      unless the history is empty or all zero. */
  lemma {:induction false} LatestIsMax(h: seq<ExecutionHistory>)
    ensures forall k :: 0 <= k < |h| ==> h[k].timestamp <= Latest(h)
    ensures Latest(h) == 0 || exists k :: 0 <= k < |h| && h[k].timestamp == Latest(h)
    decreases |h|
  {
    if h != [] {
      var init := h[..|h| - 1];
      LatestIsMax(init);
      assert forall k :: 0 <= k < |init| ==> init[k] == h[k];
    }
  }

  /** Go's integer division, which truncates toward zero. */
  function Quot(a: int, b: int): (q: int)
    requires b > 0
    ensures a >= 0 ==> q == a / b
    ensures a < 0 ==> q == -((-a) / b)
  {
    if a >= 0 then a / b else -((-a) / b)
  }

  /** Durations between 0 and `bound` sum to at most `bound` per entry. */
  lemma {:induction false} TotalBounded(h: seq<ExecutionHistory>, bound: nat)
    requires forall k :: 0 <= k < |h| ==> 0 <= h[k].duration <= bound
    ensures 0 <= TotalDuration(h) <= |h| * bound
    decreases |h|
  {
    if h != [] {
      var init := h[..|h| - 1];
      assert forall k :: 0 <= k < |init| ==> init[k] == h[k];
      TotalBounded(init, bound);
      assert |h| * bound == |init| * bound + bound;
    }
  }

  /** Truncating division by a positive count keeps a value between 0 and
      `count * bound` between 0 and `bound`. */
  lemma QuotBounded(t: int, n: nat, bound: nat)
    requires n > 0 && 0 <= t <= n * bound
    ensures 0 <= Quot(t, n) <= bound
  {
    var q := t / n;
    DivBelow(t, n);
    if q > bound {
      MulStep(n, q, bound);
    }
  }

  /** The quotient times the divisor does not pass the dividend. */
  lemma DivBelow(t: int, n: nat)
    requires n > 0 && t >= 0
    ensures 0 <= t / n && n * (t / n) <= t
  {
    assert t == n * (t / n) + t % n;
  }

  /** A factor past `bound` gives at least one more `n` than `bound` does. */
  lemma MulStep(n: nat, q: int, bound: nat)
    requires q > bound
    ensures n * q >= n * bound + n
  {
    MulMono(n, bound + 1, q);
    assert n * (bound + 1) == n * bound + n;
  }

  lemma {:induction false} MulMono(n: nat, a: nat, b: nat)
    requires a <= b
    ensures n * a <= n * b
    decreases n
  {
    if n > 0 {
      MulMono(n - 1, a, b);
      assert n * a == (n - 1) * a + a;
      assert n * b == (n - 1) * b + b;
    }
  }

  /** The average duration of a non-empty history lies within the durations' bounds. */
  lemma AverageBounded(h: seq<ExecutionHistory>, bound: nat)
    requires h != [] && forall k :: 0 <= k < |h| ==> 0 <= h[k].duration <= bound
    ensures 0 <= Quot(TotalDuration(h), |h|) <= bound
  {
    TotalBounded(h, bound);
    QuotBounded(TotalDuration(h), |h|, bound);
  }
}
