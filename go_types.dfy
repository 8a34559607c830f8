// Declarations the Go packages share: the dynamic `any` values held in
// metadata maps, the plain records `types.Task` and `types.Message`, and the
// slice operations the Go code spells `append(s[:i], s[i+1:]...)` and
// `s[total-count:]`. Times are integer ticks and 0 is Go's zero `time.Time`.
module GoTypes {
  import opened Wrappers

  /** A Go `any` as far as the core looks inside one: strings, integers,
      booleans, string slices, and every other dynamic type lumped together. */
  datatype Value = Str(s: string) | Int(i: int) | Bool(b: bool) | Strs(ss: seq<string>) | Other

  /** `types.Task` (types/task.go); a nil deadline is None. */
  datatype Task = Task(
    taskId: string, title: string, description: string,
    assignedTo: string, assignedBy: string, status: string,
    dependencies: seq<string>, deliverables: seq<string>, deadline: Option<nat>,
    createdAt: nat, updatedAt: nat, metadata: map<string, Value>)

  /** `types.Message` (types/message.go). */
  datatype Message = Message(id: string, sender: string, receiver: string, body: string)

  /** `ds.Message` (ds/message.go): the typed envelope the agents exchange. */
  datatype DsMessage = DsMessage(id: string, sender: string, receiver: string, kind: string, body: Value)

  /** `state.AgentExecutionHistory` and `state.ExecutionHistory` (the same fields). */
  datatype ExecutionHistory = ExecutionHistory(
    executionId: string, timestamp: nat, taskId: string, messageId: string, action: string,
    input: map<string, Value>, output: map<string, Value>, status: string, duration: int,
    errorMessage: string, dependencies: seq<string>, metadata: map<string, Value>)

  function Min(a: int, b: int): int
  {
    if a <= b then a else b
  }

  /** `append(s[:i], s[i+1:]...)`: the slice without its element at `i`. */
  function RemoveAt<T>(s: seq<T>, i: nat): (r: seq<T>)
    requires i < |s|
    ensures |r| == |s| - 1
    ensures multiset(r) == multiset(s) - multiset{s[i]}
    ensures forall j :: 0 <= j < i ==> r[j] == s[j]
    ensures forall j :: i <= j < |r| ==> r[j] == s[j + 1]
  {
    assert s == s[..i] + [s[i]] + s[i + 1..];
    s[..i] + s[i + 1..]
  }

  /** The position of the first `x` in `s`, or `|s|` when there is none. */
  function IndexOf<T(==)>(s: seq<T>, x: T): (i: nat)
    ensures i <= |s|
    ensures i < |s| ==> s[i] == x
    ensures forall j :: 0 <= j < i ==> s[j] != x
    ensures i == |s| <==> x !in s
  {
    if s == [] then 0 else if s[0] == x then 0 else 1 + IndexOf(s[1..], x)
  }

  /** The loop `for i, y := range s { if y == x { s = append(s[:i], s[i+1:]...); break } }`. */
  function RemoveFirst<T(==)>(s: seq<T>, x: T): (r: seq<T>)
    ensures x !in s ==> r == s
    ensures x in s ==> |r| == |s| - 1 && multiset(r) == multiset(s) - multiset{x}
    ensures x in s ==> r[..IndexOf(s, x)] == s[..IndexOf(s, x)]
  {
    var i := IndexOf(s, x);
    if i == |s| then s else RemoveAt(s, i)
  }

  /** The Go loop that appends each element passing `p` to a fresh slice. */
  function Filter<T>(s: seq<T>, p: T -> bool): (r: seq<T>)
    ensures |r| <= |s|
    ensures forall i :: 0 <= i < |r| ==> r[i] in s && p(r[i])
    ensures forall i :: 0 <= i < |s| && p(s[i]) ==> s[i] in r
    decreases |s|
  {
    if s == [] then []
    else Filter(s[..|s| - 1], p) + (if p(s[|s| - 1]) then [s[|s| - 1]] else [])
  }

  /** Filtering keeps the order: the kept elements, read from the front, are the
      passing elements of `a` followed by those of `b`. */
  lemma {:induction false} FilterAppend<T>(a: seq<T>, b: seq<T>, p: T -> bool)
    ensures Filter(a + b, p) == Filter(a, p) + Filter(b, p)
    decreases |b|
  {
    if b == [] {
      assert a + b == a;
    } else {
      var b0 := b[..|b| - 1];
      assert (a + b)[..|a + b| - 1] == a + b0;
      FilterAppend(a, b0, p);
    }
  }

  /** The `GetRecentExecutions` slice: the last `min(count, |h|)` entries, in order. */
  function Recent<T>(h: seq<T>, count: int): (r: seq<T>)
    ensures count <= 0 ==> r == []
    ensures count > 0 ==> |r| == Min(count, |h|)
    ensures |r| <= |h| && r == h[|h| - |r|..]
  {
    if count <= 0 || |h| == 0 then []
    else
      var start := if |h| - count < 0 then 0 else |h| - count;
      h[start..]
  }

  /** `AddExecutionHistory` under a cap: when the history is full its oldest
      entry is dropped, so it never grows past the cap and `x` comes last. */
  function Bounded<T>(h: seq<T>, x: T, cap: nat): (r: seq<T>)
    requires cap > 0
    ensures |h| <= cap ==> |r| == Min(|h| + 1, cap)
    ensures |r| <= |h| + 1 && r == (h + [x])[|h| + 1 - |r|..]
    ensures |r| > 0 && r[|r| - 1] == x
  {
    if |h| >= cap then h[1..] + [x] else h + [x]
  }
}
